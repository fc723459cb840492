/**
 * The two tables the judge touches, in place of the Prisma client: problems
 * with their test cases (only read here) and submissions, which are created
 * and then updated in place.
 */
module Datastore {
  import opened Judging

  /** A problem row with its test cases in stored order (`include: { testCases: true }`). */
  datatype Problem = Problem(
    id: int,
    slug: string,
    title: string,
    description: string,
    difficulty: string,
    testCases: seq<TestCase>)

  datatype Submission = Submission(
    id: nat,
    userId: int,
    problemId: int,
    language: string,
    code: string,
    status: Status)

  /**
   * Row `id` is below the counter and matches its key; it was created
   * `Pending` and holds the status it was last written with.
   */
  ghost predicate RowValid(rows: map<nat, Submission>, writes: map<nat, seq<Status>>, nextId: nat, id: nat)
    requires id in rows
  {
    id < nextId && rows[id].id == id && id in writes &&
    writes[id] != [] && writes[id][0] == Pending &&
    rows[id].status == writes[id][|writes[id]| - 1]
  }

  /** The submission table, with ids handed out by an auto-increment counter. */
  class SubmissionStore {
    var rows: map<nat, Submission>
    var nextId: nat
    /** Every status each row has been written with, oldest first. */
    ghost var writes: map<nat, seq<Status>>

    /**
     * Ids are below the counter and match their row; every row was created
     * `Pending` and holds the status it was last written with. Histories exist
     * only for ids already handed out, so a new row never takes over one.
     */
    ghost predicate Valid()
      reads this
    {
      1 <= nextId &&
      (forall id :: id in rows ==> RowValid(rows, writes, nextId, id)) &&
      (forall id :: id in writes ==> id < nextId)
    }

    constructor ()
      ensures Valid()
      ensures rows == map[] && writes == map[] && nextId == 1
    {
      rows := map[];
      nextId := 1;
      writes := map[];
    }

    /** `prisma.submission.create` with status `Pending`. */
    method Create(userId: int, problemId: int, language: string, code: string) returns (row: Submission)
      requires Valid()
      modifies this
      ensures Valid()
      ensures row == Submission(old(nextId), userId, problemId, language, code, Pending)
      ensures row.id !in old(rows) && row.id !in old(writes)
      ensures rows == old(rows)[row.id := row]
      ensures writes == old(writes)[row.id := [Pending]]
      ensures nextId == old(nextId) + 1
    {
      row := Submission(nextId, userId, problemId, language, code, Pending);
      rows := rows[nextId := row];
      writes := writes[nextId := [Pending]];
      nextId := nextId + 1;
    }

    /** `prisma.submission.update` of the status of an existing row. */
    method Update(id: nat, status: Status) returns (row: Submission)
      requires Valid() && id in rows
      modifies this
      ensures Valid()
      ensures row == old(rows)[id].(status := status)
      ensures rows == old(rows)[id := row]
      ensures writes == old(writes)[id := old(writes)[id] + [status]]
      ensures nextId == old(nextId)
    {
      row := rows[id].(status := status);
      rows := rows[id := row];
      writes := writes[id := writes[id] + [status]];
    }
  }
}

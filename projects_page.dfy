/** The admin list of projects (client/src/pages/Projects.jsx): the fetched
    rows, their numbering, and deletion with confirmation. */
module ProjectsPage {
  import opened Wrappers
  import opened Seqs
  import opened ProjectModel

  /** A listed document with its `_id`. */
  datatype Row = Row(id: string, project: Project)

  /** `prevProjects.filter(project => project._id !== projectId)` (Projects.jsx:63-65). */
  function WithoutId(rows: seq<Row>, id: string): (r: seq<Row>)
    ensures forall i :: 0 <= i < |r| ==> r[i].id != id && r[i] in rows
    ensures forall i :: 0 <= i < |rows| && rows[i].id != id ==> rows[i] in r
  {
    Filter(rows, (row: Row) => row.id != id)
  }

  /** Every row has its own id. */
  predicate DistinctIds(rows: seq<Row>)
  {
    forall i, j :: 0 <= i < j < |rows| ==> rows[i].id != rows[j].id
  }

  predicate Listed(rows: seq<Row>, id: string)
  {
    exists i :: 0 <= i < |rows| && rows[i].id == id
  }

  lemma ListedSplit(rows: seq<Row>, id: string)
    requires rows != []
    ensures Listed(rows, id) <==> rows[0].id == id || Listed(rows[1..], id)
  {
    if Listed(rows, id) {
      var i :| 0 <= i < |rows| && rows[i].id == id;
      if i > 0 { assert rows[1..][i - 1].id == id; }
    }
    if Listed(rows[1..], id) {
      var i :| 0 <= i < |rows[1..]| && rows[1..][i].id == id;
      assert rows[i + 1].id == id;
    }
  }

  /** With distinct ids, removal takes out exactly the one listed row, or none. */
  lemma {:induction false} WithoutIdRemovesOne(rows: seq<Row>, id: string)
    requires DistinctIds(rows)
    ensures |WithoutId(rows, id)| == if Listed(rows, id) then |rows| - 1 else |rows|
  {
    if rows != [] {
      var rest := rows[1..];
      assert DistinctIds(rest);
      WithoutIdRemovesOne(rest, id);
      ListedSplit(rows, id);
    }
  }

  /** Removal keeps the other rows in order, so ids stay distinct. */
  lemma {:induction false} WithoutIdKeepsOrder(rows: seq<Row>, id: string)
    requires DistinctIds(rows)
    ensures IsSubsequence(WithoutId(rows, id), rows)
    ensures DistinctIds(WithoutId(rows, id))
  {
    FilterIsSubsequence(rows, (row: Row) => row.id != id);
    WithoutIdDistinct(rows, id);
  }

  lemma DistinctCons(row: Row, rows: seq<Row>)
    requires DistinctIds(rows)
    requires forall j :: 0 <= j < |rows| ==> row.id != rows[j].id
    ensures DistinctIds([row] + rows)
  {
    var all := [row] + rows;
    forall i, j | 0 <= i < j < |all|
      ensures all[i].id != all[j].id
    {
      assert all[j] == rows[j - 1];
      if i > 0 {
        assert all[i] == rows[i - 1];
      }
    }
  }

  lemma {:induction false} WithoutIdDistinct(rows: seq<Row>, id: string)
    requires DistinctIds(rows)
    ensures DistinctIds(WithoutId(rows, id))
  {
    if rows != [] {
      var rest := rows[1..];
      assert DistinctIds(rest) by {
        forall i, j | 0 <= i < j < |rest|
          ensures rest[i].id != rest[j].id
        {
          assert rest[i] == rows[i + 1] && rest[j] == rows[j + 1];
        }
      }
      WithoutIdDistinct(rest, id);
      var tail := WithoutId(rest, id);
      if rows[0].id != id {
        assert WithoutId(rows, id) == [rows[0]] + tail;
        forall j | 0 <= j < |tail|
          ensures rows[0].id != tail[j].id
        {
          var k :| 0 <= k < |rest| && rest[k] == tail[j];
          assert rows[k + 1] == tail[j];
        }
        DistinctCons(rows[0], tail);
      } else {
        assert WithoutId(rows, id) == tail;
      }
    }
  }


  /** The row numbers shown (Projects.jsx:115): 1 to the number of rows, with
      no gaps, whatever was deleted before. */
  function RowNumbers(rows: seq<Row>): (numbers: seq<nat>)
    ensures |numbers| == |rows|
    ensures forall i :: 0 <= i < |rows| ==> numbers[i] == i + 1
  {
    seq(|rows|, i => i + 1)
  }

  function DeleteUrl(id: string): string
  {
    "/api/project/delete/" + id
  }

  /** The page's state. */
  class ProjectsPage {
    var projects: seq<Row>

    constructor ()
      ensures projects == []
    {
      projects := [];
    }

    /** The fetch effect: the response's rows, or no change when it failed. */
    method Load(data: Option<seq<Row>>)
      modifies this
      ensures data.Some? ==> projects == data.value
      ensures data.None? ==> projects == old(projects)
    {
      if data.Some? {
        projects := data.value;
      }
    }

    /** `deleteProject` (Projects.jsx:53-74): `confirmed` is the answer to the
        confirmation dialog, `succeeded` whether the request came back 2xx.
        Returns the request sent, if any. */
    method DeleteProject(id: string, confirmed: bool, succeeded: bool) returns (request: Option<string>)
      modifies this
      ensures !confirmed ==> request == None && projects == old(projects)
      ensures confirmed ==> request == Some(DeleteUrl(id))
      ensures confirmed && succeeded ==> projects == WithoutId(old(projects), id)
      ensures confirmed && !succeeded ==> projects == old(projects)
    {
      if !confirmed {
        return None;
      }
      request := Some(DeleteUrl(id));
      if succeeded {
        projects := Filter(projects, (row: Row) => row.id != id);
      }
    }
  }

  /** Deleting the first of two rows leaves the second, renumbered 1. */
  method DeleteFirst(a: Project, b: Project) returns (left: seq<Row>, numbers: seq<nat>)
    ensures left == [Row("b", b)] && numbers == [1]
  {
    var page := new ProjectsPage();
    page.Load(Some([Row("a", a), Row("b", b)]));
    var request := page.DeleteProject("a", true, true);
    left := page.projects;
    var keep := (row: Row) => row.id != "a";
    assert [Row("a", a), Row("b", b)][1..] == [Row("b", b)] && [Row("b", b)][1..] == [];
    assert Filter([Row("b", b)], keep) == [Row("b", b)];
    assert left == Filter([Row("a", a), Row("b", b)], keep);
    numbers := RowNumbers(left);
  }
}

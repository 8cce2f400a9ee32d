/**
 * Extraction of member addresses from the roster table of the admin interface's
 * `/members` pages. The roster is the fifth `table` of a page (index 4); row 1
 * holds the per-letter navigation links when the roster is split by initial
 * letter; the address of a member row is the text of its second cell.
 */
module Roster {
  import opened Dom

  const MemberTableIndex: nat := 4
  const LetterRowIndex: nat := 1

  /** Header rows skipped: two on a single-page roster, three on a letter page. */
  function FirstRowIndex(isSinglePage: bool): nat
  {
    if isSinglePage then 2 else 3
  }

  /** Every row from `first` on has a second cell to read the address from. */
  predicate HasMemberCells(rows: seq<Row>, first: nat)
  {
    forall i :: first <= i < |rows| ==> |rows[i].cells| > 1
  }

  /** The addresses of the rows from `first` on, in row order. */
  function MembersFromRows(rows: seq<Row>, first: nat): seq<string>
    requires HasMemberCells(rows, first)
    decreases |rows|
  {
    if |rows| <= first then []
    else MembersFromRows(rows[..|rows| - 1], first) + [rows[|rows| - 1].cells[1]]
  }

  /**
   * Skipping `first` header rows leaves max(0, |rows| - first) addresses, the
   * i-th being cell 1 of row first + i.
   */
  lemma {:induction false} MembersFromRowsShape(rows: seq<Row>, first: nat)
    requires HasMemberCells(rows, first)
    ensures |MembersFromRows(rows, first)| == if |rows| <= first then 0 else |rows| - first
    ensures forall i :: 0 <= i < |MembersFromRows(rows, first)| ==>
      MembersFromRows(rows, first)[i] == rows[first + i].cells[1]
  {
    if |rows| > first {
      MembersFromRowsShape(rows[..|rows| - 1], first);
    }
  }

  /** The address of each row from the header offset on, collected by a counting loop. */
  method GetMembersFromTableRows(trs: seq<Row>, isSinglePage: bool) returns (memberList: seq<string>)
    requires HasMemberCells(trs, FirstRowIndex(isSinglePage))
    ensures memberList == MembersFromRows(trs, FirstRowIndex(isSinglePage))
  {
    var firstRowIndex := FirstRowIndex(isSinglePage);
    memberList := [];
    var i := firstRowIndex;
    while i < |trs|
      invariant firstRowIndex <= i
      invariant i <= |trs| ==> memberList == MembersFromRows(trs[..i], firstRowIndex)
      invariant |trs| < i ==> i == firstRowIndex && memberList == []
    {
      assert trs[..i + 1][..i] == trs[..i];
      memberList := memberList + [trs[i].cells[1]];
      i := i + 1;
    }
    if i <= |trs| {
      assert trs[..i] == trs;
    }
  }

  predicate HasMemberTable(d: Document)
  {
    |d.tables| > MemberTableIndex
  }

  function MemberTable(d: Document): seq<Row>
    requires HasMemberTable(d)
  {
    d.tables[MemberTableIndex]
  }

  /**
   * The layout the roster root page must have: a roster table with a navigation
   * row, and member cells from row 2 on when that row carries no links.
   */
  predicate IsRootPage(d: Document)
  {
    && HasMemberTable(d)
    && |MemberTable(d)| > LetterRowIndex
    && (|MemberTable(d)[LetterRowIndex].anchors| == 0 ==> HasMemberCells(MemberTable(d), FirstRowIndex(true)))
  }

  /** The layout a per-letter page must have: member cells from row 3 on. */
  predicate IsLetterPage(d: Document)
  {
    HasMemberTable(d) && HasMemberCells(MemberTable(d), FirstRowIndex(false))
  }

  /** The `a` elements of the navigation row of the root page. */
  function LetterLinks(d: Document): seq<Element>
    requires IsRootPage(d)
  {
    MemberTable(d)[LetterRowIndex].anchors
  }

  /** The `href` of each link, in link order. */
  function Hrefs(links: seq<Element>): seq<string>
  {
    seq(|links|, i requires 0 <= i < |links| => Attribute(links[i], "href"))
  }

  /** The `href` of each navigation link, collected by a loop over the links. */
  method LetterUrls(links: seq<Element>) returns (urlsForLetters: seq<string>)
    ensures |urlsForLetters| == |links|
    ensures forall j :: 0 <= j < |links| ==> urlsForLetters[j] == Attribute(links[j], "href")
    ensures urlsForLetters == Hrefs(links)
  {
    urlsForLetters := [];
    for i := 0 to |links|
      invariant |urlsForLetters| == i
      invariant forall j :: 0 <= j < i ==> urlsForLetters[j] == Attribute(links[j], "href")
    {
      urlsForLetters := urlsForLetters + [Attribute(links[i], "href")];
    }
  }
}

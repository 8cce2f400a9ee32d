/**
 * What listing the roster returns and which requests it sends, as a function of
 * the server's pages. The root page `/members` is fetched; when its navigation
 * row has no links the roster is on that page alone, otherwise every linked
 * letter page is fetched in link order and their rosters are concatenated.
 */
module RosterListing {
  import opened Dom
  import opened Roster
  import opened Http

  /** The outcome of a sequence of requests, together with the requests sent. */
  datatype Listing = Listing(result: Result<seq<string>>, requests: seq<Request>)

  function RosterUrl(base: string): string
  {
    base + "/members"
  }

  predicate AllAnswered(pages: map<Request, Document>, urls: seq<string>)
  {
    forall u :: u in urls ==> Get(u) in pages
  }

  /**
   * Every letter page the listing reaches has the letter-page layout. The page
   * of link i is reached only when links 0..i are all answered, since the first
   * unanswered link ends the listing; pages after it are not constrained.
   */
  predicate LetterPagesShaped(pages: map<Request, Document>, urls: seq<string>)
  {
    forall i :: 0 <= i < |urls| && AllAnswered(pages, urls[..i + 1]) ==> IsLetterPage(pages[Get(urls[i])])
  }

  /** Every letter page is answered and has the letter-page layout. */
  predicate AllLetterPages(pages: map<Request, Document>, urls: seq<string>)
  {
    forall u :: u in urls ==> Get(u) in pages && IsLetterPage(pages[Get(u)])
  }

  lemma LetterPagesShapedPrefix(pages: map<Request, Document>, urls: seq<string>, n: nat)
    requires LetterPagesShaped(pages, urls) && n <= |urls|
    ensures LetterPagesShaped(pages, urls[..n])
  {
    forall i | 0 <= i < n && AllAnswered(pages, urls[..n][..i + 1])
      ensures IsLetterPage(pages[Get(urls[..n][i])])
    {
      assert urls[..n][..i + 1] == urls[..i + 1];
    }
  }

  /** When every letter page is answered, the reached-layout condition covers all of them. */
  lemma AnsweredPagesShaped(pages: map<Request, Document>, urls: seq<string>)
    requires AllAnswered(pages, urls) && LetterPagesShaped(pages, urls)
    ensures AllLetterPages(pages, urls)
  {
    forall u | u in urls ensures Get(u) in pages && IsLetterPage(pages[Get(u)]) {
      var i :| 0 <= i < |urls| && urls[i] == u;
      assert forall v :: v in urls[..i + 1] ==> v in urls;
      assert urls[..i + 1][i] == u;
    }
  }

  /** The layouts the listing relies on, for the pages the server answers. */
  predicate RosterPagesShaped(pages: map<Request, Document>, base: string)
  {
    Get(RosterUrl(base)) in pages ==>
      && IsRootPage(pages[Get(RosterUrl(base))])
      && LetterPagesShaped(pages, Hrefs(LetterLinks(pages[Get(RosterUrl(base))])))
  }

  /**
   * Fetching the letter pages `urls` one after the other, stopping at the first
   * transport failure; each answered page contributes its offset-3 roster. It
   * succeeds only when every letter page is answered.
   */
  function Collect(pages: map<Request, Document>, urls: seq<string>): (r: Listing)
    requires LetterPagesShaped(pages, urls)
    ensures r.result.Success? ==> AllAnswered(pages, urls)
    decreases |urls|
  {
    if urls == [] then Listing(Success([]), [])
    else
      LetterPagesShapedPrefix(pages, urls, |urls| - 1);
      var previous := Collect(pages, urls[..|urls| - 1]);
      if previous.result.Failure? then previous
      else
        var request := Get(urls[|urls| - 1]);
        var requests := previous.requests + [request];
        if request !in pages then Listing(Failure(TransportError(request)), requests)
        else
          assert urls == urls[..|urls| - 1] + [urls[|urls| - 1]] && urls[..|urls|] == urls;
          Listing(Success(previous.result.value + MembersFromRows(MemberTable(pages[request]), FirstRowIndex(false))), requests)
  }

  /**
   * One more letter page after a successful prefix: it is reached, so it has the
   * letter layout when answered, and it extends the listing by its roster or
   * ends it with its own transport failure.
   */
  lemma CollectStep(pages: map<Request, Document>, urls: seq<string>, i: nat)
    requires LetterPagesShaped(pages, urls)
    requires i < |urls|
    ensures LetterPagesShaped(pages, urls[..i]) && LetterPagesShaped(pages, urls[..i + 1])
    ensures Collect(pages, urls[..i]).result.Success? && Get(urls[i]) in pages ==>
      && IsLetterPage(pages[Get(urls[i])])
      && Collect(pages, urls[..i + 1]) == Listing(
           Success(Collect(pages, urls[..i]).result.value + MembersFromRows(MemberTable(pages[Get(urls[i])]), FirstRowIndex(false))),
           Collect(pages, urls[..i]).requests + [Get(urls[i])])
    ensures Collect(pages, urls[..i]).result.Success? && Get(urls[i]) !in pages ==>
      Collect(pages, urls[..i + 1]) == Listing(Failure(TransportError(Get(urls[i]))), Collect(pages, urls[..i]).requests + [Get(urls[i])])
  {
    LetterPagesShapedPrefix(pages, urls, i);
    LetterPagesShapedPrefix(pages, urls, i + 1);
    var prefix := urls[..i + 1];
    assert prefix[..i] == urls[..i] && prefix[i] == urls[i];
    if Collect(pages, urls[..i]).result.Success? && Get(urls[i]) in pages {
      assert forall u :: u in prefix ==> u in urls[..i] || u == urls[i];
      assert AllAnswered(pages, urls[..i + 1]);
    }
  }

  /** The roster listing operation: its result and the requests it sends. */
  function Memberlist(pages: map<Request, Document>, base: string): Listing
    requires RosterPagesShaped(pages, base)
  {
    var root := Get(RosterUrl(base));
    if root !in pages then Listing(Failure(TransportError(root)), [root])
    else
      var d := pages[root];
      if |LetterLinks(d)| == 0 then Listing(Success(MembersFromRows(MemberTable(d), FirstRowIndex(true))), [root])
      else
        var letters := Collect(pages, Hrefs(LetterLinks(d)));
        Listing(letters.result, [root] + letters.requests)
  }

  /** One GET per URL, in order. */
  function Gets(urls: seq<string>): seq<Request>
  {
    seq(|urls|, i requires 0 <= i < |urls| => Get(urls[i]))
  }

  /** The letter rosters of `urls`, concatenated front to back. */
  function LetterMembers(pages: map<Request, Document>, urls: seq<string>): seq<string>
    requires AllLetterPages(pages, urls)
  {
    if urls == [] then []
    else MembersFromRows(MemberTable(pages[Get(urls[0])]), FirstRowIndex(false)) + LetterMembers(pages, urls[1..])
  }

  lemma {:induction false} LetterMembersAppend(pages: map<Request, Document>, a: seq<string>, b: seq<string>)
    requires AllLetterPages(pages, a + b)
    ensures AllLetterPages(pages, a) && AllLetterPages(pages, b)
    ensures LetterMembers(pages, a + b) == LetterMembers(pages, a) + LetterMembers(pages, b)
  {
    assert forall u :: u in a ==> u in a + b;
    assert forall u :: u in b ==> u in a + b;
    if a != [] {
      assert (a + b)[1..] == a[1..] + b;
      LetterMembersAppend(pages, a[1..], b);
    } else {
      assert a + b == b;
    }
  }

  /**
   * When every letter page is answered, collecting them succeeds with their
   * rosters concatenated in link order, after exactly one GET per link.
   */
  lemma {:induction false} CollectAllAnswered(pages: map<Request, Document>, urls: seq<string>)
    requires AllAnswered(pages, urls) && LetterPagesShaped(pages, urls)
    ensures AllLetterPages(pages, urls)
    ensures Collect(pages, urls) == Listing(Success(LetterMembers(pages, urls)), Gets(urls))
  {
    AnsweredPagesShaped(pages, urls);
    if urls != [] {
      var init := urls[..|urls| - 1];
      var last := urls[|urls| - 1];
      assert urls == init + [last];
      LetterPagesShapedPrefix(pages, urls, |urls| - 1);
      LetterMembersAppend(pages, init, [last]);
      assert [last][1..] == [];
      assert LetterMembers(pages, [last]) == MembersFromRows(MemberTable(pages[Get(last)]), FirstRowIndex(false));
      CollectAllAnswered(pages, init);
      assert Gets(urls) == Gets(init) + [Get(last)];
    }
  }

  /**
   * When the j-th letter page is the first one the server does not answer, the
   * listing fails with that request, after GETs of the first j + 1 links.
   */
  lemma {:induction false} CollectFirstUnanswered(pages: map<Request, Document>, urls: seq<string>, j: nat)
    requires LetterPagesShaped(pages, urls)
    requires j < |urls| && Get(urls[j]) !in pages
    requires forall i :: 0 <= i < j ==> Get(urls[i]) in pages
    ensures Collect(pages, urls) == Listing(Failure(TransportError(Get(urls[j]))), Gets(urls[..j + 1]))
  {
    var init := urls[..|urls| - 1];
    LetterPagesShapedPrefix(pages, urls, |urls| - 1);
    if |urls| == j + 1 {
      assert init == urls[..j];
      assert AllAnswered(pages, init);
      CollectAllAnswered(pages, init);
      assert Gets(urls[..j + 1]) == Gets(init) + [Get(urls[j])];
    } else {
      assert init[..j + 1] == urls[..j + 1];
      CollectFirstUnanswered(pages, init, j);
    }
  }

  /** Once a prefix of the letter pages has failed, the rest adds neither result nor request. */
  lemma {:induction false} CollectStops(pages: map<Request, Document>, urls: seq<string>, n: nat)
    requires LetterPagesShaped(pages, urls)
    requires n <= |urls|
    ensures LetterPagesShaped(pages, urls[..n])
    ensures Collect(pages, urls[..n]).result.Failure? ==> Collect(pages, urls) == Collect(pages, urls[..n])
    decreases |urls|
  {
    LetterPagesShapedPrefix(pages, urls, n);
    if n < |urls| {
      var init := urls[..|urls| - 1];
      LetterPagesShapedPrefix(pages, urls, |urls| - 1);
      assert init[..n] == urls[..n];
      CollectStops(pages, init, n);
    } else {
      assert urls[..n] == urls;
    }
  }

  /** Collecting reads the server only at the requested letter pages. */
  lemma {:induction false} CollectReadsOnlyLetters(p: map<Request, Document>, q: map<Request, Document>, urls: seq<string>)
    requires LetterPagesShaped(p, urls) && LetterPagesShaped(q, urls)
    requires forall u :: u in urls ==> (Get(u) in p <==> Get(u) in q)
    requires forall u :: u in urls && Get(u) in p ==> p[Get(u)] == q[Get(u)]
    ensures Collect(p, urls) == Collect(q, urls)
  {
    if urls != [] {
      var init := urls[..|urls| - 1];
      assert forall u :: u in init ==> u in urls;
      LetterPagesShapedPrefix(p, urls, |urls| - 1);
      LetterPagesShapedPrefix(q, urls, |urls| - 1);
      CollectReadsOnlyLetters(p, q, init);
    }
  }

  /**
   * Single-page roster: with no link in the navigation row, the listing is the
   * offset-2 extraction of the root page's roster table, one address per row
   * from row 2 on in row order, and no request beyond the root page is sent.
   */
  lemma SinglePageRoster(pages: map<Request, Document>, base: string)
    requires RosterPagesShaped(pages, base)
    requires Get(RosterUrl(base)) in pages
    requires |LetterLinks(pages[Get(RosterUrl(base))])| == 0
    ensures var rows := MemberTable(pages[Get(RosterUrl(base))]);
      && Memberlist(pages, base).requests == [Get(RosterUrl(base))]
      && Memberlist(pages, base).result.Success?
      && |Memberlist(pages, base).result.value| == (if |rows| <= 2 then 0 else |rows| - 2)
      && forall i :: 0 <= i < |Memberlist(pages, base).result.value| ==>
           Memberlist(pages, base).result.value[i] == rows[2 + i].cells[1]
  {
    MembersFromRowsShape(MemberTable(pages[Get(RosterUrl(base))]), 2);
  }

  /**
   * Paginated roster: with links in the navigation row and every letter page
   * answered, the listing is the concatenation of the letter rosters in link
   * order, after the root GET and one GET per link.
   */
  lemma MultiPageRoster(pages: map<Request, Document>, base: string)
    requires RosterPagesShaped(pages, base)
    requires Get(RosterUrl(base)) in pages
    requires |LetterLinks(pages[Get(RosterUrl(base))])| > 0
    requires AllAnswered(pages, Hrefs(LetterLinks(pages[Get(RosterUrl(base))])))
    ensures AllLetterPages(pages, Hrefs(LetterLinks(pages[Get(RosterUrl(base))])))
    ensures var urls := Hrefs(LetterLinks(pages[Get(RosterUrl(base))]));
      Memberlist(pages, base) == Listing(Success(LetterMembers(pages, urls)), [Get(RosterUrl(base))] + Gets(urls))
  {
    CollectAllAnswered(pages, Hrefs(LetterLinks(pages[Get(RosterUrl(base))])));
  }

  /**
   * On a paginated roster the root page's own rows contribute nothing: replacing
   * the root page by any page with the same navigation links leaves the listing
   * unchanged, unless a letter link points back at the root page itself.
   */
  lemma RootRowsIgnored(pages: map<Request, Document>, base: string, other: Document)
    requires RosterPagesShaped(pages, base)
    requires Get(RosterUrl(base)) in pages
    requires IsRootPage(other)
    requires LetterLinks(other) == LetterLinks(pages[Get(RosterUrl(base))])
    requires |LetterLinks(other)| > 0
    requires RosterUrl(base) !in Hrefs(LetterLinks(other))
    ensures RosterPagesShaped(pages[Get(RosterUrl(base)) := other], base)
    ensures Memberlist(pages[Get(RosterUrl(base)) := other], base) == Memberlist(pages, base)
  {
    var q := pages[Get(RosterUrl(base)) := other];
    CollectReadsOnlyLetters(q, pages, Hrefs(LetterLinks(other)));
  }

  /** Without an answer for the root page the listing fails at once, after that single GET. */
  lemma RootUnanswered(pages: map<Request, Document>, base: string)
    requires RosterPagesShaped(pages, base)
    requires Get(RosterUrl(base)) !in pages
    ensures Memberlist(pages, base) == Listing(Failure(TransportError(Get(RosterUrl(base)))), [Get(RosterUrl(base))])
  {
  }
}

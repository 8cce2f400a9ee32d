/**
 * The result page the admin interface returns after an add or a remove: an `h5`
 * heading announces successful entries, which are then the `li` items of the
 * first `ul`. An item whose text carries the marker "--" after its first
 * character is the address followed by a warning, and is not a success.
 */
module ResultPage {
  import opened Dom
  import opened PhpStrings

  const WarningMarker: string := "--"

  /** `strpos($text, '--')` is truthy: the marker first occurs at index 1 or later. */
  predicate Warned(text: string)
  {
    Truthy(StrPos(text, WarningMarker))
  }

  /**
   * An item is dropped exactly when the marker occurs in it but it does not start
   * with the marker; an item that starts with "--" is kept.
   */
  lemma WarnedIff(text: string)
    ensures Warned(text) <==> Contains(text, WarningMarker) && !StartsWith(text, WarningMarker)
  {
    StrPosTruthy(text, WarningMarker);
  }

  /** The items without a warning, in list order. */
  function Successful(items: seq<string>): seq<string>
    decreases |items|
  {
    if items == [] then []
    else
      var last := items[|items| - 1];
      Successful(items[..|items| - 1]) + (if Warned(last) then [] else [last])
  }

  /** The layout the source needs: when there is an `h5`, there is a `ul`. */
  predicate IsResultPage(d: Document)
  {
    |d.h5s| > 0 ==> |d.lists| > 0
  }

  /** The entries a result page reports as successful. */
  function ResultEntries(d: Document): seq<string>
    requires IsResultPage(d)
  {
    if |d.h5s| == 0 then [] else Successful(d.lists[0])
  }

  method ParseResultList(body: Document) returns (result: seq<string>)
    requires IsResultPage(body)
    ensures result == ResultEntries(body)
  {
    result := [];
    var haveSuccessfulEntry := |body.h5s| > 0;
    if haveSuccessfulEntry {
      var lis := body.lists[0];
      for i := 0 to |lis|
        invariant result == Successful(lis[..i])
      {
        assert lis[..i + 1][..i] == lis[..i];
        if !Warned(lis[i]) {
          result := result + [lis[i]];
        }
      }
      assert lis[..|lis|] == lis;
    }
  }

  /** Without an `h5` nothing is reported, whatever the lists hold. */
  lemma NoHeadingNoEntries(d: Document)
    requires IsResultPage(d)
    requires |d.h5s| == 0
    ensures ResultEntries(d) == []
  {
  }

  /** An item is reported exactly when it is in the list and carries no warning. */
  lemma {:induction false} SuccessfulMembers(items: seq<string>, x: string)
    ensures x in Successful(items) <==> x in items && !Warned(x)
  {
    if items != [] {
      var init := items[..|items| - 1];
      SuccessfulMembers(init, x);
      assert items == init + [items[|items| - 1]];
    }
  }

  /** `r` is `s` with some elements removed, the rest in their original order. */
  predicate IsSubsequence(r: seq<string>, s: seq<string>)
    decreases |s|
  {
    if r == [] then true
    else if s == [] then false
    else
      || (r[|r| - 1] == s[|s| - 1] && IsSubsequence(r[..|r| - 1], s[..|s| - 1]))
      || IsSubsequence(r, s[..|s| - 1])
  }

  lemma {:induction false} SuccessfulIsSubsequence(items: seq<string>)
    ensures IsSubsequence(Successful(items), items)
  {
    if items != [] {
      var init := items[..|items| - 1];
      var last := items[|items| - 1];
      SuccessfulIsSubsequence(init);
      var r := Successful(items);
      if !Warned(last) {
        assert r[|r| - 1] == last && r[..|r| - 1] == Successful(init);
      } else {
        assert r == Successful(init);
      }
    }
  }

  /** Never more entries than items, and all of them exactly when none is warned. */
  lemma {:induction false} SuccessfulLength(items: seq<string>)
    ensures |Successful(items)| <= |items|
    ensures |Successful(items)| == |items| <==> forall i :: 0 <= i < |items| ==> !Warned(items[i])
  {
    if items != [] {
      var init := items[..|items| - 1];
      SuccessfulLength(init);
      if !Warned(items[|items| - 1]) {
        assert forall i :: 0 <= i < |init| ==> init[i] == items[i];
      }
    }
  }

  lemma NoDash(text: string)
    requires '-' !in text
    ensures !Warned(text)
  {
    forall k: nat | k + 2 <= |text|
      ensures !IsAt(text, WarningMarker, k)
    {
      assert text[k..k + 2][0] == text[k];
    }
    WarnedIff(text);
  }

  /**
   * A page with an `h5` and the items "a@x.com" and "b@x.com -- warning: already
   * subscribed" reports only the first address.
   */
  lemma WarnedItemDropped()
    ensures ResultEntries(Document([], [], ["Erfolgreich eingetragen:"],
      [["a@x.com", "b@x.com -- warning: already subscribed"]], []))
      == ["a@x.com"]
  {
    var first := "a@x.com";
    var second := "b@x.com -- warning: already subscribed";
    NoDash(first);
    assert second[8..10] == [second[8], second[9]] == WarningMarker;
    assert IsAt(second, WarningMarker, 8);
    assert second[0] == 'b' && second[0..2][0] == second[0];
    WarnedIff(second);
    var items := [first, second];
    assert items[..1] == [first];
    assert [first][..0] == [];
    assert Successful([first]) == [first];
    assert Successful(items) == Successful([first]);
  }

  /** An item that starts with the marker is not taken for a warning, so it is reported. */
  lemma LeadingMarkerKept(text: string)
    requires StartsWith(text, WarningMarker)
    ensures !Warned(text)
    ensures Successful([text]) == [text]
  {
    WarnedIff(text);
    assert [text][..0] == [];
  }
}

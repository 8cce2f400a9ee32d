/**
 * The admin client: it logs in with the list's admin password, lists the roster,
 * and adds, removes or renames members by submitting the admin interface's forms,
 * each submission carrying the CSRF token of a freshly fetched `/members` page.
 */
module MailmanApi {
  import opened Dom
  import opened PhpStrings
  import opened Roster
  import opened ResultPage
  import opened Http
  import opened RosterListing

  /** The submit button's (German) label, posted with every form. */
  const SubmitLabel: string := "Änderungen speichern"

  /** The separator between addresses in a batch field: chr(10). */
  const NewLine: char := '\n'

  function AuthForm(password: string): FormParams
  {
    [("adminpw", password)]
  }

  function AddForm(token: string, members: seq<string>): FormParams
  {
    [ ("csrf_token", token),
      ("subscribe_or_invite", "0"),
      ("send_welcome_msg_to_this_batch", "0"),
      ("send_notifications_to_list_owner", "0"),
      ("subscribees", Join(members, NewLine)),
      ("setmemberopts_btn", SubmitLabel) ]
  }

  function RemoveForm(token: string, members: seq<string>): FormParams
  {
    [ ("csrf_token", token),
      ("send_unsub_ack_to_this_batch", "0"),
      ("send_unsub_notifications_to_list_owner", "0"),
      ("unsubscribees", Join(members, NewLine)),
      ("setmemberopts_btn", SubmitLabel) ]
  }

  function ChangeForm(token: string, memberFrom: string, memberTo: string): FormParams
  {
    [ ("csrf_token", token),
      ("change_from", memberFrom),
      ("change_to", memberTo),
      ("setmemberopts_btn", SubmitLabel) ]
  }

  /**
   * The add form posts the token, switches off invitation, welcome message and
   * owner notification, and carries the batch joined by chr(10) ("" for an
   * empty batch).
   */
  lemma AddFormFlags(token: string, members: seq<string>)
    ensures Lookup(AddForm(token, members), "csrf_token") == Some(token)
    ensures Lookup(AddForm(token, members), "subscribe_or_invite") == Some("0")
    ensures Lookup(AddForm(token, members), "send_welcome_msg_to_this_batch") == Some("0")
    ensures Lookup(AddForm(token, members), "send_notifications_to_list_owner") == Some("0")
    ensures Lookup(AddForm(token, members), "subscribees") == Some(Join(members, NewLine))
  {
    var form := AddForm(token, members);
    assert Lookup(form, "csrf_token") == Some(token) by { LookupAt(form, "csrf_token", 0); }
    assert Lookup(form, "subscribe_or_invite") == Some("0") by { LookupAt(form, "subscribe_or_invite", 1); }
    assert Lookup(form, "send_welcome_msg_to_this_batch") == Some("0") by { LookupAt(form, "send_welcome_msg_to_this_batch", 2); }
    assert Lookup(form, "send_notifications_to_list_owner") == Some("0") by { LookupAt(form, "send_notifications_to_list_owner", 3); }
    assert Lookup(form, "subscribees") == Some(Join(members, NewLine)) by { LookupAt(form, "subscribees", 4); }
  }

  /**
   * The batch field of the add form splits back into the addresses when there is
   * at least one and none contains a newline.
   */
  lemma AddFormCarriesMembers(token: string, members: seq<string>)
    requires |members| >= 1
    requires forall i :: 0 <= i < |members| ==> NewLine !in members[i]
    ensures Lookup(AddForm(token, members), "subscribees").Some?
    ensures Split(Lookup(AddForm(token, members), "subscribees").value, NewLine) == members
  {
    LookupAt(AddForm(token, members), "subscribees", 4);
    SplitJoin(members, NewLine);
  }

  /**
   * The remove form posts the token, switches off the unsubscribe
   * acknowledgement and owner notification, and carries the batch joined by
   * chr(10).
   */
  lemma RemoveFormFlags(token: string, members: seq<string>)
    ensures Lookup(RemoveForm(token, members), "csrf_token") == Some(token)
    ensures Lookup(RemoveForm(token, members), "send_unsub_ack_to_this_batch") == Some("0")
    ensures Lookup(RemoveForm(token, members), "send_unsub_notifications_to_list_owner") == Some("0")
    ensures Lookup(RemoveForm(token, members), "unsubscribees") == Some(Join(members, NewLine))
  {
    var form := RemoveForm(token, members);
    assert Lookup(form, "csrf_token") == Some(token) by { LookupAt(form, "csrf_token", 0); }
    assert Lookup(form, "send_unsub_ack_to_this_batch") == Some("0") by { LookupAt(form, "send_unsub_ack_to_this_batch", 1); }
    assert Lookup(form, "send_unsub_notifications_to_list_owner") == Some("0") by { LookupAt(form, "send_unsub_notifications_to_list_owner", 2); }
    assert Lookup(form, "unsubscribees") == Some(Join(members, NewLine)) by { LookupAt(form, "unsubscribees", 3); }
  }

  /** The batch field of the remove form splits back into the addresses, as for add. */
  lemma RemoveFormCarriesMembers(token: string, members: seq<string>)
    requires |members| >= 1
    requires forall i :: 0 <= i < |members| ==> NewLine !in members[i]
    ensures Lookup(RemoveForm(token, members), "unsubscribees").Some?
    ensures Split(Lookup(RemoveForm(token, members), "unsubscribees").value, NewLine) == members
  {
    LookupAt(RemoveForm(token, members), "unsubscribees", 3);
    SplitJoin(members, NewLine);
  }

  /** The change form posts the token and both addresses. */
  lemma ChangeFormFields(token: string, memberFrom: string, memberTo: string)
    ensures Lookup(ChangeForm(token, memberFrom, memberTo), "csrf_token") == Some(token)
    ensures Lookup(ChangeForm(token, memberFrom, memberTo), "change_from") == Some(memberFrom)
    ensures Lookup(ChangeForm(token, memberFrom, memberTo), "change_to") == Some(memberTo)
  {
    var form := ChangeForm(token, memberFrom, memberTo);
    LookupAt(form, "csrf_token", 0);
    LookupAt(form, "change_from", 1);
    LookupAt(form, "change_to", 2);
  }

  /** The three mutating operations. */
  datatype Operation =
    | Add(members: seq<string>)
    | Remove(members: seq<string>)
    | Change(memberFrom: string, memberTo: string)

  function EndpointUrl(base: string, op: Operation): string
  {
    match op
    case Add(_) => base + "/members/add"
    case Remove(_) => base + "/members/remove"
    case Change(_, _) => base + "/members/change"
  }

  function FormFor(op: Operation, token: string): FormParams
  {
    match op
    case Add(members) => AddForm(token, members)
    case Remove(members) => RemoveForm(token, members)
    case Change(memberFrom, memberTo) => ChangeForm(token, memberFrom, memberTo)
  }

  /** The page the token is read from, whatever operation it is for. */
  function TokenRequest(base: string): Request
  {
    Get(RosterUrl(base))
  }

  function SubmitRequest(base: string, op: Operation, token: string): Request
  {
    Post(EndpointUrl(base, op), FormFor(op, token))
  }

  /** The token's location: the first `input` of the first `form` exists. */
  predicate HasTokenInput(d: Document)
  {
    |d.forms| > 0 && |d.forms[0].inputs| > 0
  }

  /** The CSRF token: the `value` of the first `input` of the first `form`. */
  function CsrfToken(d: Document): string
    requires HasTokenInput(d)
  {
    Attribute(d.forms[0].inputs[0], "value")
  }

  predicate TokenPageShaped(pages: map<Request, Document>, base: string)
  {
    TokenRequest(base) in pages ==> HasTokenInput(pages[TokenRequest(base)])
  }

  /** The response of a submission and the requests it sends. */
  datatype Exchange = Exchange(response: Result<Document>, requests: seq<Request>)

  /** A mutating operation: fetch the token page, then post the form with its token. */
  function Submission(pages: map<Request, Document>, base: string, op: Operation): Exchange
    requires TokenPageShaped(pages, base)
  {
    var tokenPage := TokenRequest(base);
    if tokenPage !in pages then Exchange(Failure(TransportError(tokenPage)), [tokenPage])
    else
      var submit := SubmitRequest(base, op, CsrfToken(pages[tokenPage]));
      Exchange(if submit in pages then Success(pages[submit]) else Failure(TransportError(submit)), [tokenPage, submit])
  }

  /**
   * Every mutating operation sends a GET of `/members` and then, when that page is
   * answered, exactly one POST to its own endpoint carrying that page's token; its
   * response is the answer to that POST.
   */
  lemma SubmissionSequence(pages: map<Request, Document>, base: string, op: Operation)
    requires TokenPageShaped(pages, base)
    ensures var s := Submission(pages, base, op);
      && 1 <= |s.requests| <= 2
      && s.requests[0] == Get(base + "/members")
      && (|s.requests| == 2 <==> Get(base + "/members") in pages)
      && (|s.requests| == 2 ==>
            && s.requests[1] == SubmitRequest(base, op, CsrfToken(pages[Get(base + "/members")]))
            && s.requests[1].Post?
            && s.requests[1].url == EndpointUrl(base, op)
            && Lookup(s.requests[1].formParams, "csrf_token") == Some(CsrfToken(pages[Get(base + "/members")])))
      && (s.response.Success? <==> |s.requests| == 2 && s.requests[1] in pages)
      && (s.response.Success? ==> s.response.value == pages[s.requests[1]])
      && (s.response.Failure? ==> s.response.error == TransportError(s.requests[|s.requests| - 1]))
  {
  }

  /** The text of the first `h3`; PHP reads a missing one as the empty string. */
  function Heading(d: Document): string
  {
    if |d.h3s| > 0 then d.h3s[0] else ""
  }

  /** `strpos(h3, from) == True && strpos(h3, to) == True` under PHP's loose comparison. */
  predicate ChangeConfirmed(heading: string, memberFrom: string, memberTo: string)
  {
    Truthy(StrPos(heading, memberFrom)) && Truthy(StrPos(heading, memberTo))
  }

  /**
   * A change is confirmed exactly when each address occurs in the heading and the
   * heading starts with neither.
   */
  lemma ChangeConfirmedIff(heading: string, memberFrom: string, memberTo: string)
    ensures ChangeConfirmed(heading, memberFrom, memberTo) <==>
      && Contains(heading, memberFrom) && !StartsWith(heading, memberFrom)
      && Contains(heading, memberTo) && !StartsWith(heading, memberTo)
  {
    StrPosTruthy(heading, memberFrom);
    StrPosTruthy(heading, memberTo);
  }

  /**
   * The confirmation is stricter than "both addresses occur": a heading that
   * starts with the old address is not read as a confirmation.
   */
  lemma LeadingAddressNotConfirmed()
    ensures Contains("old@x.org -> new@x.org", "old@x.org")
    ensures Contains("old@x.org -> new@x.org", "new@x.org")
    ensures !ChangeConfirmed("old@x.org -> new@x.org", "old@x.org", "new@x.org")
  {
    var heading := "old@x.org -> new@x.org";
    assert heading[0..9] == "old@x.org";
    assert heading[13..22] == "new@x.org";
    assert IsAt(heading, "old@x.org", 0);
    assert IsAt(heading, "new@x.org", 13);
    ChangeConfirmedIff(heading, "old@x.org", "new@x.org");
  }

  /** An empty address is never confirmed: `strpos` finds it at 0, which is falsy. */
  lemma EmptyAddressNotConfirmed(heading: string, memberTo: string)
    ensures !ChangeConfirmed(heading, "", memberTo)
  {
    assert IsAt(heading, "", 0);
    ChangeConfirmedIff(heading, "", memberTo);
  }

  /** The layouts add and remove rely on: the token page's form and the result page. */
  predicate BatchPagesShaped(pages: map<Request, Document>, base: string, op: Operation)
  {
    && TokenPageShaped(pages, base)
    && (TokenRequest(base) in pages && SubmitRequest(base, op, CsrfToken(pages[TokenRequest(base)])) in pages ==>
          IsResultPage(pages[SubmitRequest(base, op, CsrfToken(pages[TokenRequest(base)]))]))
  }

  /** What an add or remove returns: the entries its result page reports. */
  function BatchOutcome(pages: map<Request, Document>, base: string, op: Operation): Result<seq<string>>
    requires BatchPagesShaped(pages, base, op)
  {
    var s := Submission(pages, base, op);
    if s.response.Failure? then Failure(s.response.error) else Success(ResultEntries(s.response.value))
  }

  /** What a change returns: whether its result page confirms both addresses. */
  function ChangeOutcome(pages: map<Request, Document>, base: string, memberFrom: string, memberTo: string): Result<bool>
    requires TokenPageShaped(pages, base)
  {
    var s := Submission(pages, base, Change(memberFrom, memberTo));
    if s.response.Failure? then Failure(s.response.error)
    else Success(ChangeConfirmed(Heading(s.response.value), memberFrom, memberTo))
  }

  class MailmanAPI {
    const mailmanURL: string
    const password: string
    const client: Client

    /** Creates the client over a session and logs in by posting the admin password. */
    constructor (mailmanURL: string, password: string, client: Client)
      modifies client
      ensures this.mailmanURL == mailmanURL && this.password == password && this.client == client
      ensures client.log == old(client.log) + [Post("", AuthForm(password))]
    {
      this.mailmanURL := mailmanURL;
      this.password := password;
      this.client := client;
      new;
      var _ := client.Send(Post("", AuthForm(password)));
    }

    /** All members of the list, from the root roster page or from every letter page. */
    method GetMemberlist() returns (r: Result<seq<string>>)
      requires RosterPagesShaped(client.pages, mailmanURL)
      modifies client
      ensures r == Memberlist(client.pages, mailmanURL).result
      ensures client.log == old(client.log) + Memberlist(client.pages, mailmanURL).requests
    {
      ghost var pages := client.pages;
      var root := Get(RosterUrl(mailmanURL));
      var response := client.Send(root);
      if response.Failure? {
        return Failure(response.error);
      }
      assert response.value == pages[root] && IsRootPage(response.value);
      var trs := MemberTable(response.value);
      var links := trs[LetterRowIndex].anchors;
      if |links| == 0 {
        var members := GetMembersFromTableRows(trs, true);
        return Success(members);
      }
      var urlsForLetters := LetterUrls(links);
      assert LetterPagesShaped(pages, urlsForLetters);
      assert Memberlist(pages, mailmanURL) == Listing(Collect(pages, urlsForLetters).result, [root] + Collect(pages, urlsForLetters).requests);
      r := CollectLetters(urlsForLetters);
    }

    /** Fetches each letter page in turn and appends its roster, stopping at a transport failure. */
    method CollectLetters(urlsForLetters: seq<string>) returns (r: Result<seq<string>>)
      requires LetterPagesShaped(client.pages, urlsForLetters)
      modifies client
      ensures r == Collect(client.pages, urlsForLetters).result
      ensures client.log == old(client.log) + Collect(client.pages, urlsForLetters).requests
    {
      ghost var pages := client.pages;
      var memberList := [];
      assert urlsForLetters[..0] == [];
      for i := 0 to |urlsForLetters|
        invariant LetterPagesShaped(pages, urlsForLetters[..i])
        invariant client.log == old(client.log) + Collect(pages, urlsForLetters[..i]).requests
        invariant Collect(pages, urlsForLetters[..i]).result == Success(memberList)
      {
        CollectStep(pages, urlsForLetters, i);
        var page := client.Send(Get(urlsForLetters[i]));
        if page.Failure? {
          CollectStops(pages, urlsForLetters, i + 1);
          return Failure(page.error);
        }
        var pageMembers := GetMembersFromTableRows(MemberTable(page.value), false);
        memberList := memberList + pageMembers;
      }
      assert urlsForLetters[..|urlsForLetters|] == urlsForLetters;
      r := Success(memberList);
    }

    /** Subscribes a batch of addresses; returns those the result page reports as added. */
    method AddMembers(members: seq<string>) returns (r: Result<seq<string>>)
      requires BatchPagesShaped(client.pages, mailmanURL, Add(members))
      modifies client
      ensures r == BatchOutcome(client.pages, mailmanURL, Add(members))
      ensures client.log == old(client.log) + Submission(client.pages, mailmanURL, Add(members)).requests
    {
      var token := GetCsrfToken("add");
      if token.Failure? {
        return Failure(token.error);
      }
      var response := client.Send(Post(mailmanURL + "/members/add", AddForm(token.value, members)));
      if response.Failure? {
        return Failure(response.error);
      }
      var result := ParseResultList(response.value);
      r := Success(result);
    }

    /** Unsubscribes a batch of addresses; returns those the result page reports as removed. */
    method RemoveMembers(members: seq<string>) returns (r: Result<seq<string>>)
      requires BatchPagesShaped(client.pages, mailmanURL, Remove(members))
      modifies client
      ensures r == BatchOutcome(client.pages, mailmanURL, Remove(members))
      ensures client.log == old(client.log) + Submission(client.pages, mailmanURL, Remove(members)).requests
    {
      var token := GetCsrfToken("remove");
      if token.Failure? {
        return Failure(token.error);
      }
      var response := client.Send(Post(mailmanURL + "/members/remove", RemoveForm(token.value, members)));
      if response.Failure? {
        return Failure(response.error);
      }
      var result := ParseResultList(response.value);
      r := Success(result);
    }

    /** Changes a member's address; true when the result heading confirms both addresses. */
    method ChangeMember(memberFrom: string, memberTo: string) returns (r: Result<bool>)
      requires TokenPageShaped(client.pages, mailmanURL)
      modifies client
      ensures r == ChangeOutcome(client.pages, mailmanURL, memberFrom, memberTo)
      ensures client.log == old(client.log) + Submission(client.pages, mailmanURL, Change(memberFrom, memberTo)).requests
    {
      var token := GetCsrfToken("change");
      if token.Failure? {
        return Failure(token.error);
      }
      var response := client.Send(Post(mailmanURL + "/members/change", ChangeForm(token.value, memberFrom, memberTo)));
      if response.Failure? {
        return Failure(response.error);
      }
      var h3 := Heading(response.value);
      r := Success(ChangeConfirmed(h3, memberFrom, memberTo));
    }

    /**
     * Fetches `/members` and reads the token from it. The page argument names the
     * operation the token is for and has no effect on the request.
     */
    method GetCsrfToken(page: string) returns (token: Result<string>)
      requires TokenPageShaped(client.pages, mailmanURL)
      modifies client
      ensures client.log == old(client.log) + [TokenRequest(mailmanURL)]
      ensures TokenRequest(mailmanURL) in client.pages ==> token == Success(CsrfToken(client.pages[TokenRequest(mailmanURL)]))
      ensures TokenRequest(mailmanURL) !in client.pages ==> token == Failure(TransportError(TokenRequest(mailmanURL)))
    {
      var response := client.Send(Get(mailmanURL + "/members"));
      if response.Failure? {
        return Failure(response.error);
      }
      var form := response.value.forms[0];
      token := Success(Attribute(form.inputs[0], "value"));
    }
  }
}

# mailmanAPI admin client, modelled in Dafny

The `MailmanAPI` PHP class automates the web admin interface of a Mailman 2
mailing list, which has no machine-readable API. The class logs in with the
list's admin password. It reads the member roster, which is either one page or
split into one page per initial letter. It adds and removes batches of
addresses, and changes one member's address. Every add, remove and change form
it submits carries the CSRF token of a freshly fetched `/members` page.

This project models that client over pages that are already parsed:

- A page (`Dom.Document`) is its tables (as rows of cell texts and links), the
  texts of its `h3` and `h5` headings, its `ul` lists (as item texts) and its
  forms (as `input` elements).
- The HTTP session (`Http.Client`) is a fixed map from request to answering
  page, plus a log of every request sent. A request the map does not answer is a
  transport failure. The client does not catch it, so the operation returns
  `Failure`.
- `MailmanApi.MailmanAPI` is the client class. Its fields are `mailmanURL`,
  `password` and its session. Each operation is proved against a
  specification function of the page map. That function gives both the result
  and the exact requests appended to the log.

Modules follow the source's parts:
- `PhpStrings`: PHP's `strpos`, its loose truthiness, and `join`.
- `Roster`: row extraction from the roster table.
- `RosterListing`: the listing across one page or several letter pages.
- `ResultPage`: the add/remove result parser.
- `MailmanApi`: forms, the CSRF token, the change confirmation test, and the class.

Three behaviours of the code worth knowing:

- `changeMember` is stricter than a substring test. It tests
  `strpos(h3, address) == True`, which under PHP's loose comparison needs each
  address to first occur after the heading's first character
  (`ChangeConfirmedIff`, `LeadingAddressNotConfirmed`).
- The result parser drops an item when `strpos(item, '--')` is truthy, so it
  keeps an item that starts with `--` (`WarnedIff`, `LeadingMarkerKept`).
- A missing table, row, `ul` or `form` makes the PHP code stop with an error,
  because it calls a method on null. The model makes the presence of those
  elements a precondition, and only for pages the code actually reads.

## Model

| member | source | states |
|---|---|---|
| `PhpStrings.StrPos` | src/api.php:193 | the result is `None` exactly when the needle does not occur; otherwise it is an index where the needle occurs and no earlier index has it (PHP `strpos`, with an empty needle found at 0) |
| `PhpStrings.StrPosTruthy` | src/api.php:220 | a `strpos` result is truthy exactly when the needle occurs in the haystack and the haystack does not start with it |
| `PhpStrings.SplitJoin` | src/api.php:134 | joining one or more addresses with a newline and splitting the result on newlines gives back the addresses, provided none contains a newline |
| `Roster.MembersFromRowsShape` | src/api.php:102-113 | skipping k header rows yields max(0, rows − k) addresses; the i-th is cell 1 of row k + i, in row order |
| `Roster.GetMembersFromTableRows` | src/api.php:102-113 | the counting loop from row 2 (single page) or row 3 (letter page) returns exactly the offset extraction of the rows |
| `Roster.LetterUrls` | src/api.php:63-67 | collects one URL per navigation link, the i-th being the `href` of link i ("" when the attribute is absent) |
| `RosterListing.SinglePageRoster` | src/api.php:50-61 | with no link in row 1 of table 4, the listing succeeds with the offset-2 extraction of the root page: rows − 2 addresses, taken from cell 1 of each row from row 2 on; the GET of `/members` is the only request |
| `RosterListing.MultiPageRoster` | src/api.php:63-91 | with links and every letter page answered, the listing is the concatenation in link order of each letter page's offset-3 extraction; the requests are the root GET and then one GET per link, in link order |
| `RosterListing.RootRowsIgnored` | src/api.php:63-91 | on a paginated roster, replacing the root page by any page with the same links leaves result and requests unchanged, unless a link points back at `/members` |
| `RosterListing.CollectAllAnswered` | src/api.php:69-89 | fetching answered letter pages succeeds with their rosters concatenated front to back, after exactly one GET per URL |
| `RosterListing.CollectFirstUnanswered` | src/api.php:69-89 | when letter page j is the first one not answered, the listing fails with that request, after GETs of links 0..j and no more |
| `RosterListing.CollectStep` | src/api.php:69-89 | after a successful prefix, link i's page is reached: when answered it has the letter layout and its roster is appended, otherwise the listing ends with that request's failure |
| `RosterListing.CollectStops` | src/api.php:69-89 | once a prefix of the letter fetches has failed, the remaining links add neither result nor request |
| `RosterListing.RootUnanswered` | src/api.php:45 | when `/members` is not answered, the listing fails after that single GET |
| `ResultPage.WarnedIff` | src/api.php:220 | an item is dropped exactly when it contains `--` and does not start with `--` |
| `ResultPage.ParseResultList` | src/api.php:204-227 | the loop over the items of the first `ul` returns the item texts without a warning, in list order, when an `h5` exists, and nothing otherwise |
| `ResultPage.NoHeadingNoEntries` | src/api.php:209-214 | without an `h5` nothing is reported, whatever the lists contain |
| `ResultPage.SuccessfulMembers` | src/api.php:215-223 | a text is reported exactly when it is one of the items and carries no warning |
| `ResultPage.SuccessfulIsSubsequence` | src/api.php:215-223 | the reported entries are a subsequence of the items: some removed, the rest in their original order |
| `ResultPage.SuccessfulLength` | src/api.php:215-223 | never more entries than items, and exactly as many exactly when no item is warned |
| `ResultPage.WarnedItemDropped` | src/api.php:218-222 | with an `h5` and the items "a@x.com" and "b@x.com -- warning: already subscribed", only "a@x.com" is reported |
| `ResultPage.LeadingMarkerKept` | src/api.php:220 | an item starting with `--` is not taken for a warning and is reported |
| `Http.Client.Send` | src/api.php:45 | one request: it is appended to the log; the answer is the mapped page or a transport failure naming the request |
| `MailmanApi.AddFormFlags` | src/api.php:128-137 | for every batch, including an empty one, the add form posts the token as `csrf_token`, `'0'` for `subscribe_or_invite`, `send_welcome_msg_to_this_batch` and `send_notifications_to_list_owner`, and `subscribees` as the addresses joined by chr(10) |
| `MailmanApi.AddFormCarriesMembers` | src/api.php:134 | for one or more addresses without a newline, splitting the posted `subscribees` field on chr(10) gives the addresses back |
| `MailmanApi.RemoveFormFlags` | src/api.php:155-163 | for every batch, the remove form posts the token, `'0'` for `send_unsub_ack_to_this_batch` and `send_unsub_notifications_to_list_owner`, and `unsubscribees` as the addresses joined by chr(10) |
| `MailmanApi.RemoveFormCarriesMembers` | src/api.php:160 | for one or more addresses without a newline, the posted `unsubscribees` field splits back into them |
| `MailmanApi.ChangeFormFields` | src/api.php:179-186 | the change form posts the token, `change_from` and `change_to` |
| `MailmanApi.SubmissionSequence` | src/api.php:234-243 | a mutating operation first sends GET `/members`; when that page is answered, it then sends exactly one POST, which is the operation's own form with that page's token posted to the operation's own endpoint; the response is the answer to that POST, or a transport failure naming the last request |
| `MailmanApi.ChangeConfirmedIff` | src/api.php:191-193 | a change is confirmed exactly when each address occurs in the first `h3` and the heading starts with neither |
| `MailmanApi.LeadingAddressNotConfirmed` | src/api.php:193 | a heading that contains both addresses but starts with the old one is not a confirmation |
| `MailmanApi.EmptyAddressNotConfirmed` | src/api.php:193 | an empty address is never confirmed, since `strpos` finds it at 0 |
| `MailmanApi.MailmanAPI.constructor` | src/api.php:23-36 | stores URL, password and session, and logs in by posting `adminpw` to the base URL (the response is ignored) |
| `MailmanApi.MailmanAPI.GetMemberlist` | src/api.php:43-92 | the result and the appended requests are exactly those of the listing specification `Memberlist`, whose properties are the `RosterListing` lemmas above |
| `MailmanApi.MailmanAPI.CollectLetters` | src/api.php:69-89 | the loop that fetches each letter page and appends its roster has exactly the result and requests of `Collect` |
| `MailmanApi.MailmanAPI.AddMembers` | src/api.php:124-141 | appends exactly the GET and POST of the add submission; returns the result page's successful entries, or the transport failure |
| `MailmanApi.MailmanAPI.RemoveMembers` | src/api.php:151-166 | the same as `AddMembers`, for the remove endpoint and form |
| `MailmanApi.MailmanAPI.ChangeMember` | src/api.php:176-195 | appends exactly the GET and POST of the change submission; returns whether the first `h3` of the response confirms both addresses, or the transport failure |
| `MailmanApi.MailmanAPI.GetCsrfToken` | src/api.php:234-244 | sends exactly GET `/members`, whatever the page argument; returns the `value` of the first `input` of the first `form` of the answer ("" when the attribute is absent), or the transport failure |

## Left out

- HTML parsing (`DOMDocument::loadHTML`, the libxml error-level toggling): pages are given already parsed. Tag queries are modelled as flat lists in document order, so nested elements are not distinguished.
- The Guzzle client: the cookie jar, TLS certificate checking (the `validate_ssl_certs` argument is not modelled), and resolving relative URLs against the base URI. URLs are logged exactly as passed to the client.
- Any server answer, including an HTTP error status, is either a mapped page or a transport failure. Headers, status codes and timeouts are not modelled.
- Server behaviour is not modelled. Examples: that an added address later shows up in the roster, or that an old token is rejected.
- `MailmanApi.MailmanAPI.constructor`: if the login POST is not answered, Guzzle throws. The model only logs the request and ignores the answer, since the answer is not used.
- Missing page elements: the source calls methods on null and stops with a PHP error. In the model the element's presence is a precondition, stated only for pages the source reads (letter pages after the first unanswered link are unconstrained). This covers table 4, row 1 of that table, the first `ul` when an `h5` is present, and the first `form` and its first `input`.
- `Roster.GetMembersFromTableRows`: when a member row has no second cell, PHP appends null to the list. Instead, the precondition requires a second cell in every member row.
- A missing `h3` is not a precondition. PHP reads its text as null, and `strpos` then returns false, or 0 for an empty address; both are falsy, so `changeMember` returns false. `Heading` gives "" in that case, with the same outcome.
- Arguments of types other than strings (PHP is not typed here) are not modelled.
- The submit-button label `'Änderungen speichern'` is a constant field value. No logic depends on it.

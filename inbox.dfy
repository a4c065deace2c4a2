/** The inbox panel: fetches a page of messages for the settled search term, captures the
    senders of the first unfiltered page once and reports them upward, offers sender
    suggestions while searching by sender, and shows one message in a detail view. The
    backend's answer to each fetch is an input. */
module Inbox {
  import opened Wrappers
  import opened Types
  import opened Seqs
  import opened Text
  import opened EmailService
  import App

  const FetchFailed := "Failed to fetch emails."

  /** The sender of a message as a one-element list, or nothing when `from` is missing or
      empty (`email.from` is falsy). */
  function SenderOf(e: EmailData): seq<string>
  {
    if e.from.Some? && e.from.value != "" then [e.from.value] else []
  }

  /** The truthy senders of a page, in page order, repeats included. */
  function Senders(emails: seq<EmailData>): seq<string>
    decreases |emails|
  {
    if emails == [] then [] else Senders(emails[..|emails| - 1]) + SenderOf(emails[|emails| - 1])
  }

  /** A name is a sender of the page exactly when some message carries it as a non-empty
      `from`. */
  lemma {:induction false} SendersMember(emails: seq<EmailData>, x: string)
    ensures x in Senders(emails) <==> x != "" && exists i | 0 <= i < |emails| :: emails[i].from == Some(x)
    decreases |emails|
  {
    if emails != [] {
      var init := emails[..|emails| - 1];
      SendersMember(init, x);
      if exists i | 0 <= i < |init| :: init[i].from == Some(x) {
        var i :| 0 <= i < |init| && init[i].from == Some(x);
        assert emails[i].from == Some(x);
      }
      if exists i | 0 <= i < |emails| :: emails[i].from == Some(x) {
        var i :| 0 <= i < |emails| && emails[i].from == Some(x);
        if i < |init| {
          assert init[i].from == Some(x);
        }
      }
    }
  }

  /** The `Set` filled inside `forEach`, read back with `Array.from`: each truthy sender
      once, in order of first occurrence. */
  method CaptureSenders(emails: seq<EmailData>) returns (senders: seq<string>)
    ensures senders == Distinct(Senders(emails))
  {
    senders := [];
    var i := 0;
    while i < |emails|
      invariant 0 <= i <= |emails|
      invariant senders == Distinct(Senders(emails[..i]))
    {
      var e := emails[i];
      assert emails[..i + 1][..i] == emails[..i];
      assert Senders(emails[..i + 1]) == Senders(emails[..i]) + SenderOf(e);
      if e.from.Some? && e.from.value != "" {
        DistinctSnoc(Senders(emails[..i]), e.from.value);
        if e.from.value !in senders {
          senders := senders + [e.from.value];
        }
      } else {
        assert Senders(emails[..i + 1]) == Senders(emails[..i]);
      }
      i := i + 1;
    }
    assert emails[..i] == emails;
  }

  /** The captured pool holds every truthy sender of the page exactly once. */
  lemma CapturedPool(emails: seq<EmailData>, x: string)
    ensures NoDup(Distinct(Senders(emails)))
    ensures x in Distinct(Senders(emails)) <==> x != "" && exists i | 0 <= i < |emails| :: emails[i].from == Some(x)
  {
    SendersMember(emails, x);
  }

  /** The pool senders whose lower-cased form contains the lower-cased input, in pool order. */
  function Suggestions(pool: seq<string>, value: string): seq<string>
    decreases |pool|
  {
    if pool == [] then []
    else (if Contains(ToLower(pool[0]), ToLower(value)) then [pool[0]] else []) + Suggestions(pool[1..], value)
  }

  /** Suggestions keep the pool's order and leave senders out, never add or repeat one. */
  lemma {:induction false} SuggestionsSubsequence(pool: seq<string>, value: string)
    ensures IsSubsequence(Suggestions(pool, value), pool)
    decreases |pool|
  {
    if pool != [] {
      SuggestionsSubsequence(pool[1..], value);
      var rest := Suggestions(pool[1..], value);
      if Contains(ToLower(pool[0]), ToLower(value)) {
        assert Suggestions(pool, value) == [pool[0]] + rest;
        assert ([pool[0]] + rest)[1..] == rest;
      } else {
        assert Suggestions(pool, value) == rest;
        SubsequenceOfTail(rest, pool);
      }
    }
  }

  lemma SubsequenceOfTail<T>(a: seq<T>, b: seq<T>)
    requires b != [] && IsSubsequence(a, b[1..])
    ensures IsSubsequence(a, b)
  {
  }

  /** A sender is suggested exactly when it is in the pool and matches the input,
      ignoring ASCII case. */
  lemma {:induction false} SuggestionsMember(pool: seq<string>, value: string, x: string)
    ensures x in Suggestions(pool, value) <==> x in pool && Contains(ToLower(x), ToLower(value))
    decreases |pool|
  {
    if pool != [] {
      SuggestionsMember(pool[1..], value, x);
      assert pool == [pool[0]] + pool[1..];
    }
  }

  /** What the list area shows. */
  datatype Screen = Loading | Failure(message: string) | NoEmails | EmailList(emails: seq<EmailData>)

  /** `renderContent`: loading first, then a non-empty error, then the empty notice, then
      the messages. */
  function Render(loading: bool, error: string, emails: seq<EmailData>): (s: Screen)
    ensures s.Loading? <==> loading
    ensures s.Failure? <==> !loading && error != ""
    ensures s.Failure? ==> s.message == error
    ensures s.NoEmails? <==> !loading && error == "" && emails == []
    ensures s.EmailList? ==> s.emails == emails && emails != []
  {
    if loading then Loading
    else if error != "" then Failure(error)
    else if |emails| == 0 then NoEmails
    else EmailList(emails)
  }

  /** Every state cell of the panel, as one value. */
  datatype InboxState = InboxState(
    emails: seq<EmailData>,
    initialSenders: seq<string>,
    loading: bool,
    error: string,
    searchTerm: string,
    searchType: SearchType,
    selectedEmail: Option<EmailData>,
    suggestions: seq<string>,
    initialLoadDone: bool)

  class Inbox {
    const app: App.App
    var emails: seq<EmailData>
    var initialSenders: seq<string>
    var loading: bool
    var error: string
    var searchTerm: string
    var searchType: SearchType
    var selectedEmail: Option<EmailData>
    var suggestions: seq<string>
    var initialLoadDone: bool

    function State(): InboxState
      reads this
    {
      InboxState(emails, initialSenders, loading, error, searchTerm, searchType, selectedEmail,
                 suggestions, initialLoadDone)
    }

    /** The pool is duplicate-free and empty until captured, and suggestions are drawn from
        it in order. */
    predicate Valid()
      reads this
    {
      NoDup(initialSenders) && IsSubsequence(suggestions, initialSenders) &&
      (!initialLoadDone ==> initialSenders == [])
    }

    /** A fresh panel: loading, searching by subject, nothing captured. */
    constructor (app: App.App)
      ensures Valid() && this.app == app
      ensures State() == InboxState([], [], true, "", "", Subject, None, [], false)
    {
      this.app := app;
      emails, initialSenders := [], [];
      loading, error := true, "";
      searchTerm, searchType := "", Subject;
      selectedEmail := None;
      suggestions := [];
      initialLoadDone := false;
    }

    function CurrentScreen(): Screen
      reads this
    {
      Render(loading, error, emails)
    }

    /** `loadEmails`: one `fetchInbox` request. A success replaces the list (an absent list
        is empty); the first success for an empty term also captures the senders, reports
        them to the controller and closes the capture. A failure sets the error and keeps
        the list. Loading is off afterwards either way. */
    method LoadEmails(term: string, searchType': SearchType, reply: Reply) returns (request: Request)
      requires Valid()
      requires app.Valid()
      modifies this, app
      ensures app.Valid()
      ensures Valid()
      ensures request == FetchInbox(term, searchType')
      ensures reply.Ok? && term == "" && !old(initialLoadDone) ==>
        var pool := Distinct(Senders(reply.emails.GetOr([])));
        State() == old(State()).(emails := reply.emails.GetOr([]), loading := false, error := "",
                                 initialSenders := pool, initialLoadDone := true) &&
        app.State() == old(app.State()).(knownContacts := Distinct(old(app.knownContacts) + pool))
      ensures reply.Ok? && !(term == "" && !old(initialLoadDone)) ==>
        State() == old(State()).(emails := reply.emails.GetOr([]), loading := false, error := "") &&
        app.State() == old(app.State())
      ensures reply.NotOk? ==>
        State() == old(State()).(loading := false, error := if reply.message != "" then reply.message else FetchFailed) &&
        app.State() == old(app.State())
      ensures reply.Thrown? ==>
        State() == old(State()).(loading := false, error := reply.message) && app.State() == old(app.State())
    {
      request := FetchInbox(term, searchType');
      loading := true;
      error := "";
      match reply {
        case Ok(_, page, _) =>
          emails := page.GetOr([]);
          if term == "" && !initialLoadDone {
            CaptureInitialSenders(emails);
          }
        case NotOk(message) =>
          error := if message != "" then message else FetchFailed;
        case Thrown(message) =>
          error := message;
      }
      loading := false;
    }

    /** The one-shot capture: the page's senders become the suggestion pool, are reported
        to the controller, and the capture is closed. */
    method CaptureInitialSenders(page: seq<EmailData>)
      requires Valid() && !initialLoadDone
      requires app.Valid()
      modifies this, app
      ensures app.Valid()
      ensures Valid()
      ensures State() == old(State()).(initialSenders := Distinct(Senders(page)), initialLoadDone := true)
      ensures app.State() == old(app.State()).(knownContacts := Distinct(old(app.knownContacts) + Distinct(Senders(page))))
    {
      var senders := CaptureSenders(page);
      initialSenders := senders;
      app.HandleContactsLoaded(senders);
      initialLoadDone := true;
    }

    /** `handleSearchChange` (also run on focus): the term follows the input; suggestions
        are offered only when searching by sender with a non-empty input. */
    method HandleSearchChange(value: string)
      requires Valid()
      modifies this
      ensures Valid()
      ensures searchType == From && value != "" ==>
        State() == old(State()).(searchTerm := value, suggestions := Suggestions(initialSenders, value))
      ensures !(searchType == From && value != "") ==>
        State() == old(State()).(searchTerm := value, suggestions := [])
    {
      searchTerm := value;
      if searchType == From && value != "" {
        suggestions := Suggestions(initialSenders, value);
        SuggestionsSubsequence(initialSenders, value);
      } else {
        suggestions := [];
      }
    }

    /** The search-type selector: the term is reset and the suggestions cleared. */
    method ChangeSearchType(t: SearchType)
      requires Valid()
      modifies this
      ensures Valid()
      ensures State() == old(State()).(searchTerm := "", searchType := t, suggestions := [])
    {
      searchTerm := "";
      searchType := t;
      suggestions := [];
    }

    /** Picking suggestion `i` puts exactly that sender in the search box. */
    method PickSuggestion(i: int)
      requires Valid() && 0 <= i < |suggestions|
      modifies this
      ensures Valid()
      ensures State() == old(State()).(searchTerm := old(suggestions)[i], suggestions := [])
    {
      searchTerm := suggestions[i];
      suggestions := [];
    }

    method SelectEmail(e: EmailData)
      modifies this
      ensures State() == old(State()).(selectedEmail := Some(e))
    {
      selectedEmail := Some(e);
    }

    method CloseDetail()
      modifies this
      ensures State() == old(State()).(selectedEmail := None)
    {
      selectedEmail := None;
    }

    /** The detail view's Smart Reply button hands the shown message to the controller. */
    method SmartReply(reply: App.AiReply) returns (request: App.ProxyTypes.Payload)
      requires selectedEmail.Some?
      requires app.Valid()
      modifies app
      ensures app.Valid()
      ensures request == App.SmartReplyPayload(selectedEmail.value)
      ensures reply.Generated? ==>
        app.State() == old(app.State()).(view := App.ComposerView, status := App.Idle, errorMessage := "",
                                         draft := App.SmartReplyDraft(old(app.draft), selectedEmail.value, reply.body))
      ensures !reply.Generated? ==>
        app.State() == old(app.State()).(view := App.ComposerView, status := App.Idle,
                                         errorMessage := App.SmartReplyFailureMessage(reply),
                                         draft := old(app.draft).(body := "", replyContext := None))
    {
      request := app.HandleSmartReply(selectedEmail.value, reply);
    }
  }
}

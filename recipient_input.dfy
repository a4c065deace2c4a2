/** The To / Cc / Bcc recipient fields: each is a list of address pills plus a text input.
    Addresses enter the list by a submit key, by leaving the input, or by pasting; only
    strings matching the address pattern and not already in the list are added. */
module RecipientInput {
  import opened Wrappers
  import opened Seqs
  import opened Text
  import App

  /** A character the address pattern's classes accept: neither whitespace nor '@'. */
  predicate Plain(c: char)
  {
    !IsSpace(c) && c != '@'
  }

  predicate AllPlain(s: string)
  {
    forall k | 0 <= k < |s| :: Plain(s[k])
  }

  /** The position of the first `c` in `s`, if there is one. */
  function IndexOf(s: string, c: char): (r: Option<nat>)
    ensures r.None? <==> c !in s
    ensures r.Some? ==> r.value < |s| && s[r.value] == c
    ensures r.Some? ==> forall m | 0 <= m < r.value :: s[m] != c
  {
    if s == [] then None
    else if s[0] == c then Some(0)
    else
      match IndexOf(s[1..], c)
      case None => None
      case Some(i) => Some(i + 1)
  }

  /** A '.' with at least one character on each side. */
  predicate HasInnerDot(d: string)
  {
    exists k | 0 < k < |d| - 1 :: d[k] == '.'
  }

  /** `EMAIL_REGEX.test(s)` for `/^[^\s@]+@[^\s@]+\.[^\s@]+$/`, checked the way a scan
      would: a non-empty local part before the first '@', no whitespace in it, and a domain
      without whitespace or '@' that has a '.' neither first nor last. */
  predicate IsEmail(s: string)
  {
    match IndexOf(s, '@')
    case None => false
    case Some(a) => 0 < a && NoSpace(s[..a]) && AllPlain(s[a + 1..]) && HasInnerDot(s[a + 1..])
  }

  /** The pattern read literally: three non-empty runs of plain characters joined by an
      '@' and a '.'. */
  ghost predicate MatchesPattern(s: string)
  {
    exists i, j | 0 < i && i + 1 < j < |s| - 1 ::
      s[i] == '@' && s[j] == '.' && AllPlain(s[..i]) && AllPlain(s[i + 1..j]) && AllPlain(s[j + 1..])
  }

  /** The scan and the pattern accept the same strings. */
  lemma IsEmailIffPattern(s: string)
    ensures IsEmail(s) <==> MatchesPattern(s)
  {
    if IsEmail(s) {
      ScanMatchesPattern(s);
    }
    if MatchesPattern(s) {
      var i, j :| 0 < i && i + 1 < j < |s| - 1 &&
        s[i] == '@' && s[j] == '.' && AllPlain(s[..i]) && AllPlain(s[i + 1..j]) && AllPlain(s[j + 1..]);
      PatternPassesScan(s, i, j);
    }
  }

  lemma ScanMatchesPattern(s: string)
    requires IsEmail(s)
    ensures MatchesPattern(s)
  {
    var a := IndexOf(s, '@').value;
    var d := s[a + 1..];
    var k :| 0 < k < |d| - 1 && d[k] == '.';
    var j := a + 1 + k;
    assert s[j] == '.';
    assert AllPlain(s[..a]) by {
      forall m | 0 <= m < a ensures Plain(s[..a][m]) {
        assert s[..a][m] == s[m];
      }
    }
    assert s[a + 1..j] == d[..k];
    assert s[j + 1..] == d[k + 1..];
  }

  lemma PatternPassesScan(s: string, i: nat, j: nat)
    requires 0 < i && i + 1 < j < |s| - 1
    requires s[i] == '@' && s[j] == '.' && AllPlain(s[..i]) && AllPlain(s[i + 1..j]) && AllPlain(s[j + 1..])
    ensures IsEmail(s)
  {
    assert forall m | 0 <= m < i :: s[m] != '@' by {
      forall m | 0 <= m < i ensures s[m] != '@' {
        assert Plain(s[..i][m]);
      }
    }
    assert IndexOf(s, '@') == Some(i);
    assert NoSpace(s[..i]) by {
      forall m | 0 <= m < i ensures !IsSpace(s[..i][m]) {
        assert Plain(s[..i][m]);
      }
    }
    var d := s[i + 1..];
    assert AllPlain(d) by {
      forall m | 0 <= m < |d| ensures Plain(d[m]) {
        if i + 1 + m < j {
          assert d[m] == s[i + 1..j][m - 0];
        } else if i + 1 + m > j {
          assert d[m] == s[j + 1..][m - (j - i)];
        }
      }
    }
    assert d[j - i - 1] == '.';
  }

  /** Three non-empty runs of plain characters joined by '@' and '.' make an address. */
  lemma BuildAddress(local: string, host: string, tld: string)
    requires local != [] && host != [] && tld != []
    requires AllPlain(local) && AllPlain(host) && AllPlain(tld)
    ensures IsEmail(local + "@" + host + "." + tld)
  {
    var s := local + "@" + host + "." + tld;
    var i, j := |local|, |local| + 1 + |host|;
    assert s[..i] == local;
    assert s[i + 1..j] == host;
    assert s[j + 1..] == tld;
    PatternPassesScan(s, i, j);
  }

  /** An address has no whitespace, so trimming leaves it as it is. */
  lemma EmailHasNoSpace(s: string)
    requires IsEmail(s)
    ensures NoSpace(s) && Trim(s) == s
  {
    var a := IndexOf(s, '@').value;
    forall m | 0 <= m < |s| ensures !IsSpace(s[m]) {
      if m < a {
        assert s[m] == s[..a][m];
      } else if m > a {
        assert s[m] == s[a + 1..][m - a - 1];
      }
    }
    TrimmedEnds(s);
  }

  /** The trimmed candidates that pass the pattern and are not yet in `existing`, in order.
      Each candidate is checked against `existing` only, not against earlier candidates. */
  function Accepted(existing: seq<string>, candidates: seq<string>): (r: seq<string>)
    ensures |r| <= |candidates|
    ensures forall x | x in r :: IsEmail(x) && x !in existing
  {
    if candidates == [] then [] else Survivor(existing, candidates[0]) + Accepted(existing, candidates[1..])
  }

  /** One candidate, trimmed, when it passes the pattern and is not in `existing`. */
  function Survivor(existing: seq<string>, c: string): seq<string>
  {
    var e := Trim(c);
    if IsEmail(e) && e !in existing then [e] else []
  }

  /** `addEmails`: the new list when at least one candidate is accepted; `None` when none
      is, in which case the setter is not called. */
  function AddEmails(emails: seq<string>, candidates: seq<string>): Option<seq<string>>
  {
    var valid := Accepted(emails, candidates);
    if |valid| > 0 then Some(emails + valid) else None
  }

  /** Some candidate trims to `x`. */
  predicate TrimsTo(candidates: seq<string>, x: string)
  {
    exists i | 0 <= i < |candidates| :: Trim(candidates[i]) == x
  }

  lemma TrimsToCons(candidates: seq<string>, x: string)
    requires candidates != []
    ensures TrimsTo(candidates, x) <==> Trim(candidates[0]) == x || TrimsTo(candidates[1..], x)
  {
    var tail := candidates[1..];
    assert forall i | 0 <= i < |tail| :: tail[i] == candidates[i + 1];
    if TrimsTo(tail, x) {
      var i :| 0 <= i < |tail| && Trim(tail[i]) == x;
      assert Trim(candidates[i + 1]) == x;
    }
    if TrimsTo(candidates, x) {
      var i :| 0 <= i < |candidates| && Trim(candidates[i]) == x;
      if i > 0 {
        assert Trim(tail[i - 1]) == x;
      }
    }
  }

  /** An address is accepted exactly when it is valid, new, and some candidate trims to it. */
  lemma {:induction false} AcceptedMember(existing: seq<string>, candidates: seq<string>, x: string)
    ensures x in Accepted(existing, candidates) <==> IsEmail(x) && x !in existing && TrimsTo(candidates, x)
  {
    if candidates != [] {
      AcceptedMember(existing, candidates[1..], x);
      TrimsToCons(candidates, x);
    }
  }

  /** Adding keeps the old list as a prefix, and the new list holds exactly the old
      addresses plus the valid trimmed candidates. When no candidate survives, nothing is
      set. */
  lemma AddEmailsContents(emails: seq<string>, candidates: seq<string>, x: string)
    ensures AddEmails(emails, candidates).None? <==>
      forall i | 0 <= i < |candidates| :: !IsEmail(Trim(candidates[i])) || Trim(candidates[i]) in emails
    ensures AddEmails(emails, candidates).Some? ==>
      var v := AddEmails(emails, candidates).value; |v| > |emails| && v[..|emails|] == emails
    ensures x in AddEmails(emails, candidates).GetOr(emails) <==>
      x in emails || (IsEmail(x) && TrimsTo(candidates, x))
  {
    AcceptedMember(emails, candidates, x);
    var valid := Accepted(emails, candidates);
    if |valid| == 0 {
      forall i | 0 <= i < |candidates| ensures !IsEmail(Trim(candidates[i])) || Trim(candidates[i]) in emails {
        AcceptedMember(emails, candidates, Trim(candidates[i]));
      }
    } else {
      assert valid[0] in valid;
      AcceptedMember(emails, candidates, valid[0]);
      assert (emails + valid)[..|emails|] == emails;
    }
  }

  /** The filter works candidate by candidate: a batch's survivors are the first part's
      survivors followed by the second part's, each checked against the list alone. */
  lemma {:induction false} AcceptedAppend(existing: seq<string>, xs: seq<string>, ys: seq<string>)
    ensures Accepted(existing, xs + ys) == Accepted(existing, xs) + Accepted(existing, ys)
    decreases |xs|
  {
    if xs == [] {
      assert xs + ys == ys;
    } else {
      var c, tail := xs[0], xs[1..];
      var head, rest, more := Survivor(existing, c), Accepted(existing, tail), Accepted(existing, ys);
      HeadTail(xs, ys);
      AcceptedCons(existing, c, tail + ys);
      AcceptedCons(existing, c, tail);
      AcceptedAppend(existing, tail, ys);
      AppendAssoc(head, rest, more);
    }
  }

  lemma AcceptedCons(existing: seq<string>, c: string, cs: seq<string>)
    ensures Accepted(existing, [c] + cs) == Survivor(existing, c) + Accepted(existing, cs)
  {
    assert ([c] + cs)[0] == c;
    assert ([c] + cs)[1..] == cs;
  }

  /** One candidate survives, trimmed, exactly when it is a new address. */
  lemma AcceptedSingle(existing: seq<string>, c: string)
    ensures Accepted(existing, [c]) == if IsEmail(Trim(c)) && Trim(c) !in existing then [Trim(c)] else []
  {
    assert [c][1..] == [];
  }

  /** Order and count: the added addresses follow the candidates' order, one per surviving
      candidate, so the new list is the old one followed by the survivors of each candidate
      in turn. */
  lemma AddEmailsInOrder(emails: seq<string>, xs: seq<string>, ys: seq<string>)
    requires AddEmails(emails, xs + ys).Some?
    ensures AddEmails(emails, xs + ys).value == emails + Accepted(emails, xs) + Accepted(emails, ys)
  {
    var left, right := Accepted(emails, xs), Accepted(emails, ys);
    AcceptedAppend(emails, xs, ys);
    assert AddEmails(emails, xs + ys) == Some(emails + (left + right));
    AppendAssoc(emails, left, right);
  }

  /** A single submitted address never introduces a duplicate. */
  lemma AddOneKeepsNoDup(emails: seq<string>, candidate: string)
    requires NoDup(emails)
    ensures NoDup(AddEmails(emails, [candidate]).GetOr(emails))
  {
    AcceptedSingle(emails, candidate);
  }

  /** A batch is checked only against the list as it was: a paste that repeats a new
      address adds it twice. */
  lemma RepeatedInBatchAddedTwice(emails: seq<string>, e: string)
    requires IsEmail(e) && e !in emails
    ensures AddEmails(emails, [e, e]) == Some(emails + [e, e])
    ensures !NoDup(AddEmails(emails, [e, e]).value)
  {
    EmailHasNoSpace(e);
    AcceptOne(emails, [e], e);
    AcceptOne(emails, [e, e], e);
    assert Accepted(emails, [e, e]) == [e, e];
    var v := emails + [e, e];
    assert v[|emails|] == v[|emails| + 1];
  }

  /** The first candidate, when it is a new address with no surrounding whitespace, heads
      the accepted list. */
  lemma AcceptOne(existing: seq<string>, candidates: seq<string>, e: string)
    requires candidates != [] && candidates[0] == e
    requires IsEmail(e) && e !in existing && Trim(e) == e
    ensures Accepted(existing, candidates) == [e] + Accepted(existing, candidates[1..])
  {
  }

  /** Three addresses pasted with ", " and "; " between them are added in order. */
  lemma PasteThree(a: string, b: string, c: string)
    requires IsEmail(a) && IsEmail(b) && IsEmail(c)
    requires NoSeparator(a) && NoSeparator(b) && NoSeparator(c)
    ensures AddEmails([], SplitRuns(a + ", " + b + "; " + c)) == Some([a, b, c])
  {
    PasteSplit(a, b, c);
    AcceptThree(a, b, c);
  }

  lemma AcceptThree(a: string, b: string, c: string)
    requires IsEmail(a) && IsEmail(b) && IsEmail(c)
    ensures AddEmails([], [a, b, c]) == Some([a, b, c])
  {
    EmailHasNoSpace(a);
    EmailHasNoSpace(b);
    EmailHasNoSpace(c);
    AcceptOne([], [c], c);
    AcceptOne([], [b, c], b);
    assert [b, c][1..] == [c];
    AcceptOne([], [a, b, c], a);
    assert [a, b, c][1..] == [b, c];
    assert Accepted([], [a, b, c]) == [a, b, c];
    assert [] + [a, b, c] == [a, b, c];
  }

  lemma PasteSplit(a: string, b: string, c: string)
    requires a != [] && b != [] && c != []
    requires NoSeparator(a) && NoSeparator(b) && NoSeparator(c)
    ensures SplitRuns(a + ", " + b + "; " + c) == [a, b, c]
  {
    var comma, semi := ", ", "; ";
    assert AllSeparators(comma) && AllSeparators(semi);
    SplitPair(b, semi, c);
    assert a + comma + b + semi + c == a + comma + (b + semi + c);
    SplitStep(a, comma, b + semi + c);
  }

  /** An address with ';' in its local part, which the pattern allows. */
  const SemicolonAddress := "a;b@x.co"

  lemma SemicolonAddressIsEmail()
    ensures IsEmail(SemicolonAddress)
  {
    assert SemicolonAddress == "a;b" + "@" + "x" + "." + "co";
    BuildAddress("a;b", "x", "co");
  }

  lemma SemicolonAddressSplits()
    ensures SplitRuns(SemicolonAddress) == ["a", "b@x.co"]
  {
    assert SemicolonAddress == "a" + ";" + "b@x.co";
    SplitPair("a", ";", "b@x.co");
  }

  /** ';' is not a submit key and the pattern allows it, so "a;b@x.co" typed and submitted
      joins the To list; the joined field of the send request then splits into two pieces. */
  lemma SeparatorAddressSplitOnSend(d: App.DraftMessage)
    requires d.to == [SemicolonAddress]
    ensures IsEmail(d.to[0]) && AddEmails([], d.to) == Some(d.to)
    ensures SplitRuns(App.SendRequest(d).to) == ["a", "b@x.co"]
    ensures SplitRuns(App.SendRequest(d).to) != d.to
  {
    SemicolonAddressIsEmail();
    SemicolonAddressSplits();
    EmailHasNoSpace(SemicolonAddress);
    AcceptedSingle([], SemicolonAddress);
    assert Accepted([], d.to) == d.to;
    EmptyAppend(d.to);
    assert App.SendRequest(d).to == SemicolonAddress;
  }

  /** Two separator-free pieces around one separator run split into exactly those two. */
  lemma SplitPair(b: string, sep: string, c: string)
    requires b != [] && c != [] && NoSeparator(b) && NoSeparator(c)
    requires sep != [] && AllSeparators(sep)
    ensures SplitRuns(b + sep + c) == [b, c]
    ensures !IsSeparator((b + sep + c)[0])
  {
    SplitStep(b, sep, c);
    SplitNoSeparator(c);
  }

  /** The keys that submit the input: Enter, Tab and ','. */
  predicate IsSubmitKey(key: string)
  {
    key == "Enter" || key == "Tab" || key == ","
  }

  /** One recipient field: the list lives in the controller, the text and focus here. */
  class EmailInput {
    const app: App.App
    const field: App.Field
    var inputValue: string
    var isFocused: bool

    constructor (app: App.App, field: App.Field)
      ensures this.app == app && this.field == field
      ensures inputValue == "" && !isFocused
    {
      this.app := app;
      this.field := field;
      inputValue := "";
      isFocused := false;
    }

    /** `addEmails`: sets the field's list when a candidate is accepted, else leaves the
        controller alone. */
    method Add(candidates: seq<string>)
      requires app.Valid()
      modifies app
      ensures app.Valid()
      ensures AddEmails(old(app.draft.Emails(field)), candidates).None? ==> app.State() == old(app.State())
      ensures AddEmails(old(app.draft.Emails(field)), candidates).Some? ==>
        app.State() == old(app.State()).(draft := old(app.draft).WithEmails(
          field, AddEmails(old(app.draft.Emails(field)), candidates).value))
    {
      match AddEmails(app.draft.Emails(field), candidates)
      case Some(v) => app.SetEmails(field, v);
      case None =>
    }

    /** `handleKeyDown`: a submit key offers the whole input and clears it; Backspace on an
        empty input removes the last address; any other key changes nothing here. */
    method KeyDown(key: string)
      requires app.Valid()
      modifies this, app
      ensures app.Valid()
      ensures IsSubmitKey(key) ==> inputValue == "" && isFocused == old(isFocused)
      ensures IsSubmitKey(key) && AddEmails(old(app.draft.Emails(field)), [old(inputValue)]).None? ==>
        app.State() == old(app.State())
      ensures IsSubmitKey(key) && AddEmails(old(app.draft.Emails(field)), [old(inputValue)]).Some? ==>
        app.State() == old(app.State()).(draft := old(app.draft).WithEmails(
          field, AddEmails(old(app.draft.Emails(field)), [old(inputValue)]).value))
      ensures !IsSubmitKey(key) ==> inputValue == old(inputValue) && isFocused == old(isFocused)
      ensures !IsSubmitKey(key) && key == "Backspace" && old(inputValue) == "" ==>
        app.State() == old(app.State()).(draft := old(app.draft).WithEmails(field, DropLast(old(app.draft.Emails(field)))))
      ensures !IsSubmitKey(key) && !(key == "Backspace" && old(inputValue) == "") ==> app.State() == old(app.State())
    {
      if IsSubmitKey(key) {
        Add([inputValue]);
        inputValue := "";
      } else if key == "Backspace" && inputValue == "" {
        app.SetEmails(field, DropLast(app.draft.Emails(field)));
      }
    }

    /** `handlePaste`: the pasted text is split on runs of whitespace, ',' and ';' and the
        pieces are offered together. The typed text is kept. */
    method Paste(text: string)
      requires app.Valid()
      modifies app
      ensures app.Valid()
      ensures AddEmails(old(app.draft.Emails(field)), SplitRuns(text)).None? ==> app.State() == old(app.State())
      ensures AddEmails(old(app.draft.Emails(field)), SplitRuns(text)).Some? ==>
        app.State() == old(app.State()).(draft := old(app.draft).WithEmails(
          field, AddEmails(old(app.draft.Emails(field)), SplitRuns(text)).value))
    {
      Add(SplitRuns(text));
    }

    /** `removeEmail`: the pill at `index` goes; an index outside the list removes nothing. */
    method RemoveEmail(index: int)
      requires app.Valid()
      modifies app
      ensures app.Valid()
      ensures app.State() == old(app.State()).(draft := old(app.draft).WithEmails(
        field, Without(old(app.draft.Emails(field)), index)))
    {
      app.SetEmails(field, Without(app.draft.Emails(field), index));
    }

    method Change(v: string)
      modifies this
      ensures inputValue == v && isFocused == old(isFocused)
    {
      inputValue := v;
    }

    method Focus()
      modifies this
      ensures isFocused && inputValue == old(inputValue)
    {
      isFocused := true;
    }

    /** Leaving the input offers a non-empty text, as a submit key would, and clears it. */
    method Blur()
      requires app.Valid()
      modifies this, app
      ensures app.Valid()
      ensures !isFocused && inputValue == ""
      ensures old(inputValue) == "" ==> app.State() == old(app.State())
      ensures old(inputValue) != "" && AddEmails(old(app.draft.Emails(field)), [old(inputValue)]).None? ==>
        app.State() == old(app.State())
      ensures old(inputValue) != "" && AddEmails(old(app.draft.Emails(field)), [old(inputValue)]).Some? ==>
        app.State() == old(app.State()).(draft := old(app.draft).WithEmails(
          field, AddEmails(old(app.draft.Emails(field)), [old(inputValue)]).value))
    {
      isFocused := false;
      if inputValue != "" {
        Add([inputValue]);
        inputValue := "";
      }
    }
  }

  /** The three fields, each bound to its own list of the same controller. */
  class RecipientInput {
    const app: App.App
    const to: EmailInput
    const cc: EmailInput
    const bcc: EmailInput

    predicate Valid()
    {
      to.app == app && cc.app == app && bcc.app == app &&
      to.field == App.To && cc.field == App.Cc && bcc.field == App.Bcc
    }

    constructor (app: App.App)
      ensures Valid() && this.app == app
      ensures fresh(to) && fresh(cc) && fresh(bcc)
    {
      this.app := app;
      to := new EmailInput(app, App.To);
      cc := new EmailInput(app, App.Cc);
      bcc := new EmailInput(app, App.Bcc);
    }
  }
}

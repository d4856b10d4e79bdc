/** The release-mail script: sends one mail per recipient in batches, records
    every success in a progress file and can be restarted with `--resume`. */
module MailRun {
  import opened Wrappers

  const BATCH_SIZE := 8
  const RETRY_LIMIT := 3

  /** What the outside answers: to an attempt to send, or to an attempt to
      connect, where everything but a crash is a connection. A crash after
      delivery comes before the success is recorded. */
  datatype Answer = Delivered | DeliveredThenCrashed | Refused | Temporary | Crashed

  /** The answers to come, the progress file, and the mails accepted so far. */
  datatype World = World(answers: seq<Answer>, file: Option<set<string>>, sends: seq<string>)

  datatype Verdict = Ok | Failed | Dead | Torn

  predicate Alive(w: World) {
    w.answers != [] && w.answers[0] != Crashed
  }

  function Next(w: World): World
    requires w.answers != []
  {
    w.(answers := w.answers[1..])
  }

  function SendWithRetry(w: World, to: string, attempt: nat): (World, Verdict)
    requires 1 <= attempt <= RETRY_LIMIT
    decreases RETRY_LIMIT - attempt
  {
    if !Alive(w) then (w, Dead)
    else
      var n := Next(w);
      match w.answers[0]
      case Delivered => (n.(sends := n.sends + [to]), Ok)
      case DeliveredThenCrashed => (n.(sends := n.sends + [to]), Torn)
      case Temporary =>
        if attempt == RETRY_LIMIT then (n, Failed)
        else if !Alive(n) then (n, Dead)
        else SendWithRetry(Next(n), to, attempt + 1)
      case _ => (n, Failed)
  }

  /** One address is tried at most three times, and handed over at most once. */
  lemma {:induction false} RetriesAreBounded(w: World, to: string, attempt: nat)
    requires 1 <= attempt <= RETRY_LIMIT
    ensures var (v, verdict) := SendWithRetry(w, to, attempt);
            && |w.answers| - |v.answers| <= 2 * (RETRY_LIMIT - attempt) + 1
            && v.file == w.file
            && v.sends == if verdict == Ok || verdict == Torn then w.sends + [to] else w.sends
    decreases RETRY_LIMIT - attempt
  {
    if Alive(w) && w.answers[0] == Temporary && attempt < RETRY_LIMIT && Alive(Next(w)) {
      RetriesAreBounded(Next(Next(w)), to, attempt + 1);
    }
  }

  // ---- one run of the script ----------------------------------------------------------

  datatype End = Going | Died | Lost(to: string)

  datatype Progress = Progress(world: World, sent: set<string>, fails: nat, end: End)

  function Connect(p: Progress): Progress {
    if Alive(p.world) then p.(world := Next(p.world)) else p.(end := Died)
  }

  function SendTo(p: Progress, to: string): Progress {
    var (w, verdict) := SendWithRetry(p.world, to, 1);
    match verdict
    case Ok => p.(world := w.(file := Some(p.sent + {to})), sent := p.sent + {to})
    case Failed => p.(world := w, fails := p.fails + 1)
    case Dead => p.(world := w, end := Died)
    case Torn => p.(world := w, end := Lost(to))
  }

  /** A crash may still come before the run is over. */
  function Close(p: Progress): Progress {
    if p.world.answers != [] && p.world.answers[0] == Crashed then p.(end := Died) else p
  }

  /** The rest of the run from the `i`-th pending address on; every batch of
      eight begins with a connection of its own. */
  function Rest(p: Progress, pending: seq<string>, i: nat, connected: bool): Progress
    requires i <= |pending|
    decreases |pending| - i, if connected then 0 else 1
  {
    if p.end != Going then p
    else if i == |pending| then Close(p)
    else if i % BATCH_SIZE == 0 && !connected then Rest(Connect(p), pending, i, true)
    else Rest(SendTo(p, pending[i]), pending, i + 1, false)
  }

  function Pending(recipients: seq<string>, done: set<string>): seq<string> {
    if recipients == [] then []
    else (if recipients[0] in done then [] else [recipients[0]]) + Pending(recipients[1..], done)
  }

  function Recorded(file: Option<set<string>>): set<string> {
    if file.Some? then file.value else {}
  }

  predicate Finished(p: Progress) {
    p.end == Going && p.fails == 0
  }

  /** A run: the file is removed when everything that was pending went out. */
  function RunOnce(recipients: seq<string>, resume: bool, w: World): (World, Progress) {
    var done := if resume then Recorded(w.file) else {};
    var p := Rest(Progress(w, done, 0, Going), Pending(recipients, done), 0, false);
    (if Finished(p) then p.world.(file := None) else p.world, p)
  }

  // ---- what a run keeps -------------------------------------------------------------------

  predicate Distinct(s: seq<string>) {
    forall i, j :: 0 <= i < j < |s| ==> s[i] != s[j]
  }

  lemma {:induction false} PendingHas(recipients: seq<string>, done: set<string>, a: string)
    ensures a in Pending(recipients, done) <==> a in recipients && a !in done
  {
    if recipients != [] {
      PendingHas(recipients[1..], done, a);
      assert a in recipients <==> a == recipients[0] || a in recipients[1..];
    }
  }

  lemma {:induction false} PendingDistinct(recipients: seq<string>, done: set<string>)
    requires Distinct(recipients)
    ensures Distinct(Pending(recipients, done))
  {
    if recipients != [] {
      PendingDistinct(recipients[1..], done);
      PendingHas(recipients[1..], done, recipients[0]);
    }
  }

  /** The ledger: every accepted mail is recorded in the file or was lost in a
      crash right after delivery. */
  ghost predicate Balanced(w: World, lost: seq<string>) {
    multiset(w.sends) == multiset(lost) + multiset(Recorded(w.file))
  }

  /** Adds the mail that a run lost to those lost before. */
  function Losses(lost: seq<string>, end: End): seq<string> {
    if end.Lost? then lost + [end.to] else lost
  }

  ghost predicate Steady(p: Progress, lost: seq<string>) {
    && Recorded(p.world.file) == p.sent
    && Balanced(p.world, Losses(lost, p.end))
    && (p.end.Lost? ==> p.end.to !in p.sent)
  }

  lemma SendToIsSteady(p: Progress, to: string, lost: seq<string>)
    requires p.end == Going && Steady(p, lost) && to !in p.sent
    ensures var q := SendTo(p, to);
            Steady(q, lost) && p.sent <= q.sent <= p.sent + {to} && q.fails >= p.fails
  {
    RetriesAreBounded(p.world, to, 1);
    var (w, verdict) := SendWithRetry(p.world, to, 1);
    if verdict == Ok {
      assert multiset(p.sent + {to}) == multiset(p.sent) + multiset{to};
    }
  }

  ghost predicate NotYet(p: Progress, pending: seq<string>, i: nat) {
    forall k :: i <= k < |pending| ==> pending[k] !in p.sent
  }

  /** The rest of a run keeps the ledger balanced and forgets no success. */
  lemma {:induction false} RestIsSteady(p: Progress, pending: seq<string>, i: nat, connected: bool, lost: seq<string>)
    requires i <= |pending| && Distinct(pending) && Steady(p, lost) && NotYet(p, pending, i)
    ensures var q := Rest(p, pending, i, connected);
            Steady(q, lost) && p.sent <= q.sent && q.fails >= p.fails
    decreases |pending| - i, if connected then 0 else 1
  {
    if p.end != Going || i == |pending| {
    } else if i % BATCH_SIZE == 0 && !connected {
      RestIsSteady(Connect(p), pending, i, true, lost);
    } else {
      var q := SendTo(p, pending[i]);
      SendToIsSteady(p, pending[i], lost);
      RestIsSteady(q, pending, i + 1, false, lost);
    }
  }

  lemma SendToRecords(p: Progress, to: string)
    requires p.end == Going
    ensures var q := SendTo(p, to);
            && p.sent <= q.sent <= p.sent + {to} && q.fails >= p.fails
            && (q.end == Going && q.fails == p.fails ==> to in q.sent)
  {
  }

  /** It records pending addresses only, and all of them when nothing fails. */
  lemma {:induction false} RestRecords(p: Progress, pending: seq<string>, i: nat, connected: bool)
    requires i <= |pending|
    ensures var q := Rest(p, pending, i, connected);
            && p.sent <= q.sent && q.fails >= p.fails
            && (forall a :: a in q.sent ==> a in p.sent || a in pending)
            && (q.end == Going && q.fails == p.fails ==> forall k :: i <= k < |pending| ==> pending[k] in q.sent)
    decreases |pending| - i, if connected then 0 else 1
  {
    if p.end != Going || i == |pending| {
    } else if i % BATCH_SIZE == 0 && !connected {
      RestRecords(Connect(p), pending, i, true);
    } else {
      SendToRecords(p, pending[i]);
      RestRecords(SendTo(p, pending[i]), pending, i + 1, false);
    }
  }

  /** One restart with `--resume`. */
  lemma ResumedRun(recipients: seq<string>, w: World, lost: seq<string>)
    requires Distinct(recipients) && Balanced(w, lost)
    ensures var (v, p) := RunOnce(recipients, true, w);
            && Steady(p, lost) && Recorded(w.file) <= p.sent
            && (forall a :: a in p.sent ==> a in Recorded(w.file) || a in recipients)
            && (Finished(p) ==> forall a :: a in recipients ==> a in p.sent)
  {
    var done := Recorded(w.file);
    var pending := Pending(recipients, done);
    PendingDistinct(recipients, done);
    forall a ensures a in pending <==> a in recipients && a !in done {
      PendingHas(recipients, done, a);
    }
    RestIsSteady(Progress(w, done, 0, Going), pending, 0, false, lost);
    RestRecords(Progress(w, done, 0, Going), pending, 0, false);
    var p := RunOnce(recipients, true, w).1;
    if Finished(p) {
      forall a | a in recipients ensures a in p.sent {
        if a !in done {
          assert a in pending;
        }
      }
    }
  }

  // ---- whole histories ------------------------------------------------------------------------

  /** A release: the file, all accepted mails, those lost in a crash between
      delivery and record, the crashes, and whether it is complete. */
  datatype Story = Story(file: Option<set<string>>, sends: seq<string>, lost: seq<string>, crashes: nat, complete: bool)

  function Restart(recipients: seq<string>, s: Story, answers: seq<Answer>): Story {
    var (v, p) := RunOnce(recipients, true, World(answers, s.file, s.sends));
    Story(v.file, v.sends, Losses(s.lost, p.end), s.crashes + (if p.end == Going then 0 else 1), Finished(p))
  }

  /** Restarts until complete, each met by its own answers. */
  function Release(recipients: seq<string>, runs: seq<seq<Answer>>): Story {
    if runs == [] then Story(None, [], [], 0, false)
    else
      var s := Release(recipients, runs[..|runs| - 1]);
      if s.complete then s else Restart(recipients, s, runs[|runs| - 1])
  }

  ghost predicate Accounted(recipients: seq<string>, s: Story) {
    && |s.lost| <= s.crashes
    && (forall a :: a in Recorded(s.file) ==> a in recipients)
    && multiset(s.sends) == multiset(s.lost) + if s.complete then multiset(recipients) else multiset(Recorded(s.file))
  }

  lemma {:induction false} DistinctMultiset(s: seq<string>, whole: set<string>)
    requires Distinct(s) && forall a :: a in whole <==> a in s
    ensures multiset(s) == multiset(whole) && |whole| == |s|
  {
    if s != [] {
      var n := |s| - 1;
      assert s == s[..n] + [s[n]];
      assert forall a :: a in s <==> a == s[n] || a in s[..n];
      DistinctMultiset(s[..n], whole - {s[n]});
      assert multiset(whole) == multiset(whole - {s[n]}) + multiset{s[n]};
    }
  }

  /** Whatever crashes when, every accepted mail is accounted for: each recipient
      that is recorded got one, plus one for every crash that struck between
      its delivery and its record; in the end every recipient got one. */
  lemma {:induction false} EveryMailAccounted(recipients: seq<string>, runs: seq<seq<Answer>>)
    requires Distinct(recipients)
    ensures Accounted(recipients, Release(recipients, runs))
  {
    if runs != [] {
      var n := |runs| - 1;
      var s := Release(recipients, runs[..n]);
      EveryMailAccounted(recipients, runs[..n]);
      if !s.complete {
        var w := World(runs[n], s.file, s.sends);
        ResumedRun(recipients, w, s.lost);
        var p := RunOnce(recipients, true, w).1;
        if Finished(p) {
          DistinctMultiset(recipients, p.sent);
        }
      }
    }
  }

  // ---- what needs no assumption on the recipients ----------------------------------------

  /** What a run knows to be sent is in the file, and nothing else is if nothing
      else was. */
  lemma {:induction false} RestFiles(p: Progress, pending: seq<string>, i: nat, connected: bool)
    requires i <= |pending| && p.sent <= Recorded(p.world.file)
    ensures var q := Rest(p, pending, i, connected);
            && q.sent <= Recorded(q.world.file)
            && (p.sent == Recorded(p.world.file) ==> q.sent == Recorded(q.world.file))
    decreases |pending| - i, if connected then 0 else 1
  {
    if p.end != Going || i == |pending| {
    } else if i % BATCH_SIZE == 0 && !connected {
      RestFiles(Connect(p), pending, i, true);
    } else {
      RetriesAreBounded(p.world, pending[i], 1);
      RestFiles(SendTo(p, pending[i]), pending, i + 1, false);
    }
  }

  /** A run that is about to remove the file has every recipient on record in
      it, with `--resume` or without, whoever is listed, whatever the file held. */
  lemma DeletedOnlyWhenAllRecorded(recipients: seq<string>, resume: bool, w: World)
    ensures var (v, p) := RunOnce(recipients, resume, w);
            && (v.file != p.world.file <==> Finished(p) && p.world.file.Some?)
            && (Finished(p) ==> forall a :: a in recipients ==> a in Recorded(p.world.file))
  {
    var done := if resume then Recorded(w.file) else {};
    var start, pending := Progress(w, done, 0, Going), Pending(recipients, done);
    RestFiles(start, pending, 0, false);
    RestRecords(start, pending, 0, false);
    var p := Rest(start, pending, 0, false);
    if Finished(p) {
      forall a | a in recipients ensures a in Recorded(p.world.file) {
        PendingHas(recipients, done, a);
        if a in pending {
          var k :| 0 <= k < |pending| && pending[k] == a;
          assert pending[k] in p.sent;
        }
      }
    }
  }

  /** A run mails the pending addresses and no others. */
  lemma {:induction false} RestMailsPending(p: Progress, pending: seq<string>, i: nat, connected: bool, a: string)
    requires i <= |pending| && a !in pending
    ensures multiset(Rest(p, pending, i, connected).world.sends)[a] == multiset(p.world.sends)[a]
    decreases |pending| - i, if connected then 0 else 1
  {
    if p.end != Going || i == |pending| {
    } else if i % BATCH_SIZE == 0 && !connected {
      RestMailsPending(Connect(p), pending, i, true, a);
    } else {
      assert pending[i] in pending;
      RetriesAreBounded(p.world, pending[i], 1);
      RestMailsPending(SendTo(p, pending[i]), pending, i + 1, false, a);
    }
  }

  /** An address on record gets no further mail from a resumed run and stays on
      record unless that run removes the file. */
  lemma RecordedIsSkipped(recipients: seq<string>, w: World, a: string)
    requires a in Recorded(w.file)
    ensures var (v, p) := RunOnce(recipients, true, w);
            && multiset(v.sends)[a] == multiset(w.sends)[a]
            && (!Finished(p) ==> a in Recorded(v.file))
  {
    var done := Recorded(w.file);
    var start, pending := Progress(w, done, 0, Going), Pending(recipients, done);
    PendingHas(recipients, done, a);
    RestMailsPending(start, pending, 0, false, a);
    RestFiles(start, pending, 0, false);
    RestRecords(start, pending, 0, false);
  }

  /** Over any history: once an address is on record it is never mailed again. */
  lemma {:induction false} RecordedIsNotMailedAgain(recipients: seq<string>, runs: seq<seq<Answer>>, k: nat, a: string)
    requires k <= |runs| && a in Recorded(Release(recipients, runs[..k]).file)
    ensures var before, now := Release(recipients, runs[..k]), Release(recipients, runs);
            && multiset(now.sends)[a] == multiset(before.sends)[a]
            && (now.complete || a in Recorded(now.file))
    decreases |runs|
  {
    var n := |runs| - 1;
    if k == |runs| {
      assert runs[..k] == runs;
    } else {
      assert runs[..n][..k] == runs[..k];
      RecordedIsNotMailedAgain(recipients, runs[..n], k, a);
      var s := Release(recipients, runs[..n]);
      if !s.complete {
        RecordedIsSkipped(recipients, World(runs[n], s.file, s.sends), a);
      }
    }
  }

  /** An address that is pending keeps its number of listings. */
  lemma {:induction false} PendingCount(recipients: seq<string>, done: set<string>, a: string)
    ensures multiset(Pending(recipients, done))[a] == if a in done then 0 else multiset(recipients)[a]
  {
    if recipients != [] {
      PendingCount(recipients[1..], done, a);
      assert recipients == [recipients[0]] + recipients[1..];
    }
  }

  /** How often an address is listed from the `i`-th place on. */
  function Listed(pending: seq<string>, i: nat, a: string): nat
    requires i <= |pending|
    decreases |pending| - i
  {
    if i == |pending| then 0 else (if pending[i] == a then 1 else 0) + Listed(pending, i + 1, a)
  }

  lemma {:induction false} ListedIsCount(pending: seq<string>, i: nat, a: string)
    requires i <= |pending|
    ensures Listed(pending, i, a) == multiset(pending[i..])[a]
    decreases |pending| - i
  {
    if i < |pending| {
      ListedIsCount(pending, i + 1, a);
      assert pending[i..] == [pending[i]] + pending[i + 1..];
    }
  }

  function LostOf(p: Progress, a: string): nat { if p.end == Lost(a) then 1 else 0 }

  /** What a part of a run does to one address that is listed `times` times: it
      gets the mail lost in the crash, if that was its own, and beyond that
      nothing unless it is recorded, and then between one and `times`. */
  ghost predicate MailedFairly(p: Progress, q: Progress, a: string, times: nat) {
    var before, now := multiset(p.world.sends)[a], multiset(q.world.sends)[a];
    && now >= before + LostOf(q, a) + (if a in q.sent && a !in p.sent then 1 else 0)
    && now <= before + LostOf(q, a) + (if a in q.sent then times else 0)
    && p.sent <= q.sent
  }

  lemma SendToFairly(p: Progress, to: string, a: string)
    requires p.end == Going
    ensures MailedFairly(p, SendTo(p, to), a, if to == a then 1 else 0)
  {
    RetriesAreBounded(p.world, to, 1);
  }

  lemma {:induction false} RestFairly(p: Progress, pending: seq<string>, i: nat, connected: bool, a: string)
    requires i <= |pending| && p.end == Going
    ensures MailedFairly(p, Rest(p, pending, i, connected), a, Listed(pending, i, a))
    decreases |pending| - i, if connected then 0 else 1
  {
    if i == |pending| {
    } else if i % BATCH_SIZE == 0 && !connected {
      if Connect(p).end == Going {
        RestFairly(Connect(p), pending, i, true, a);
      }
    } else {
      SendToFairly(p, pending[i], a);
      if SendTo(p, pending[i]).end == Going {
        RestFairly(SendTo(p, pending[i]), pending, i + 1, false, a);
      }
    }
  }

  /** The mails of one address: those lost in crashes, and for an address that is
      on record, or once all are, between one and its number of listings. */
  ghost predicate Fair(recipients: seq<string>, s: Story, a: string) {
    var sent, lost, times := multiset(s.sends)[a], multiset(s.lost)[a], multiset(recipients)[a];
    if s.complete || a in Recorded(s.file) then lost + (if times == 0 then 0 else 1) <= sent <= lost + times
    else sent == lost
  }

  /** One run adds its mails to an address and its loss to the losses. */
  lemma RunOnceFairly(recipients: seq<string>, w: World, a: string)
    ensures var (v, p) := RunOnce(recipients, true, w);
            var times := if a in Recorded(w.file) then 0 else multiset(recipients)[a];
            && MailedFairly(Progress(w, Recorded(w.file), 0, Going), p, a, times)
            && v.sends == p.world.sends && p.sent == Recorded(p.world.file)
            && (Finished(p) && a in recipients ==> a in p.sent)
  {
    var done := Recorded(w.file);
    var start, pending := Progress(w, done, 0, Going), Pending(recipients, done);
    RestFairly(start, pending, 0, false, a);
    ListedIsCount(pending, 0, a);
    assert pending[0..] == pending;
    PendingCount(recipients, done, a);
    RestFiles(start, pending, 0, false);
    DeletedOnlyWhenAllRecorded(recipients, true, w);
  }

  /** Whatever is on record is on the list. */
  lemma {:induction false} RecordedIsListed(recipients: seq<string>, runs: seq<seq<Answer>>, a: string)
    ensures a in Recorded(Release(recipients, runs).file) ==> a in recipients
  {
    if runs != [] {
      var n := |runs| - 1;
      var s := Release(recipients, runs[..n]);
      RecordedIsListed(recipients, runs[..n], a);
      if !s.complete {
        var done := Recorded(s.file);
        var start, pending := Progress(World(runs[n], s.file, s.sends), done, 0, Going), Pending(recipients, done);
        RestRecords(start, pending, 0, false);
        RestFiles(start, pending, 0, false);
        PendingHas(recipients, done, a);
      }
    }
  }

  lemma RestartFairly(recipients: seq<string>, s: Story, answers: seq<Answer>, a: string)
    requires Fair(recipients, s, a) && !s.complete
    requires a in Recorded(s.file) ==> a in recipients
    ensures Fair(recipients, Restart(recipients, s, answers), a)
  {
    var w := World(answers, s.file, s.sends);
    var p := RunOnce(recipients, true, w).1;
    RunOnceFairly(recipients, w, a);
    assert multiset(Losses(s.lost, p.end))[a] == multiset(s.lost)[a] + LostOf(p, a);
  }

  /** Every list of recipients, repeated ones included, over every history. */
  lemma {:induction false} EveryAddressIsMailedFairly(recipients: seq<string>, runs: seq<seq<Answer>>, a: string)
    ensures Fair(recipients, Release(recipients, runs), a)
  {
    if runs != [] {
      var n := |runs| - 1;
      EveryAddressIsMailedFairly(recipients, runs[..n], a);
      if !Release(recipients, runs[..n]).complete {
        RecordedIsListed(recipients, runs[..n], a);
        RestartFairly(recipients, Release(recipients, runs[..n]), runs[n], a);
      }
    }
  }

  lemma {:induction false} LossesAreCrashes(recipients: seq<string>, runs: seq<seq<Answer>>)
    ensures |Release(recipients, runs).lost| <= Release(recipients, runs).crashes
  {
    if runs != [] {
      LossesAreCrashes(recipients, runs[..|runs| - 1]);
    }
  }

  /** So altogether at most one mail per listing and crash. */
  lemma SendsAreBounded(recipients: seq<string>, runs: seq<seq<Answer>>)
    ensures |Release(recipients, runs).sends| <= |recipients| + Release(recipients, runs).crashes
  {
    var s := Release(recipients, runs);
    var all := multiset(s.lost) + multiset(recipients);
    forall a | a in multiset(s.sends) ensures multiset(s.sends)[a] <= all[a] {
      EveryAddressIsMailedFairly(recipients, runs, a);
    }
    assert all == multiset(s.sends) + (all - multiset(s.sends));
    assert |s.sends| == |multiset(s.sends)| && |all| == |s.lost| + |recipients|;
    LossesAreCrashes(recipients, runs);
  }

  /** Distinctness is needed: a recipient listed twice is mailed twice even
      without a crash. */
  lemma ListedTwiceMailedTwice()
    ensures var s := Release(["a", "a"], [[Delivered, Delivered, Delivered]]);
            s.complete && s.crashes == 0 && s.sends == ["a", "a"]
  {
    var runs := [[Delivered, Delivered, Delivered]];
    assert runs[..0] == [];
    var w := World(runs[0], None, []);
    assert Pending(["a", "a"], {}) == ["a", "a"] by {
      assert ["a", "a"][1..] == ["a"];
    }
    var p0 := Progress(w, {}, 0, Going);
    var p1 := Connect(p0);
    assert p1.world.answers == [Delivered, Delivered];
    var p2 := SendTo(p1, "a");
    assert p2.world.answers == [Delivered] && p2.world.sends == ["a"];
    var p3 := SendTo(p2, "a");
    assert p3.world.sends == ["a", "a"];
    assert Rest(p2, ["a", "a"], 1, false) == Rest(p3, ["a", "a"], 2, false) == p3;
    assert Rest(p0, ["a", "a"], 0, false) == Rest(p1, ["a", "a"], 0, true) == p3;
  }

  /** And so is `--resume`: a restart without it mails a recorded recipient again. */
  lemma PlainRestartMailsAgain(a: string, sends: seq<string>)
    ensures RunOnce([a], false, World([Delivered, Delivered], Some({a}), sends)).0.sends == sends + [a]
    ensures RunOnce([a], true, World([Delivered, Delivered], Some({a}), sends)).0.sends == sends
  {
    var w := World([Delivered, Delivered], Some({a}), sends);
    assert Pending([a], {}) == [a] && Pending([a], {a}) == [];
    var p0 := Progress(w, {}, 0, Going);
    var p1 := Connect(p0);
    assert p1.world.answers == [Delivered];
    var p2 := SendTo(p1, a);
    assert Rest(p0, [a], 0, false) == Rest(p1, [a], 0, true) == Rest(p2, [a], 1, false) == p2;
  }

  // ---- what the answers bring about ------------------------------------------------------------

  /** `k` temporary refusals, each followed by a new connection. */
  predicate TemporaryFirst(answers: seq<Answer>, k: nat) {
    || k == 0
    || (|answers| >= 2 && answers[0] == Temporary && answers[1] != Crashed && TemporaryFirst(answers[2..], k - 1))
  }

  /** The answers behind them. */
  function Behind(answers: seq<Answer>, k: nat): seq<Answer>
    requires TemporaryFirst(answers, k)
  {
    if k == 0 then answers else Behind(answers[2..], k - 1)
  }

  /** What the last attempt makes of an address. */
  predicate Decides(w: World, to: string, last: bool, r: (World, Verdict)) {
    if w.answers == [] || w.answers[0] == Crashed then r == (w, Dead)
    else
      var after := Next(w);
      match w.answers[0]
      case Delivered => r == (after.(sends := w.sends + [to]), Ok)
      case DeliveredThenCrashed => r == (after.(sends := w.sends + [to]), Torn)
      case Refused => r == (after, Failed)
      case Temporary =>
        if last then r == (after, Failed) else after.answers == [] || after.answers[0] == Crashed ==> r == (after, Dead)
      case Crashed => true
  }

  /** One address takes at most three attempts: after up to two temporary refusals
      and reconnections the next answer decides, and a third refusal is final. A
      mail is handed over exactly when that answer says so. */
  lemma {:induction false} AttemptsDecide(w: World, to: string, attempt: nat, k: nat)
    requires 1 <= attempt && attempt + k <= 3 && TemporaryFirst(w.answers, k)
    ensures Decides(w.(answers := Behind(w.answers, k)), to, attempt + k == 3, SendWithRetry(w, to, attempt))
    decreases k
  {
    if k > 0 {
      var n := Next(Next(w));
      assert n.answers == w.answers[2..];
      AttemptsDecide(n, to, attempt + 1, k - 1);
    }
  }

  /** The answers to a run in which every address is either taken or refused:
      one for each connection, eight addresses to a connection. */
  function Answers(taken: seq<bool>, i: nat, connected: bool): seq<Answer>
    requires i <= |taken|
    decreases |taken| - i, if connected then 0 else 1
  {
    if i == |taken| then []
    else if i % 8 == 0 && !connected then [Delivered] + Answers(taken, i, true)
    else [if taken[i] then Delivered else Refused] + Answers(taken, i + 1, false)
  }

  /** The addresses that are taken, from the `i`-th on. */
  function Taken(pending: seq<string>, taken: seq<bool>, i: nat): seq<string>
    requires |pending| == |taken| && i <= |pending|
    decreases |pending| - i
  {
    if i == |pending| then []
    else (if taken[i] then [pending[i]] else []) + Taken(pending, taken, i + 1)
  }

  /** What such a run leaves: each taken address mailed once per listing, in order,
      and recorded at once; each refused one counted; and the next answer unread. */
  ghost predicate Went(p: Progress, q: Progress, mailed: seq<string>, refused: nat, tail: seq<Answer>) {
    && q.world.answers == tail && q.world.sends == p.world.sends + mailed
    && q.sent == p.sent + (set a | a in mailed) && q.fails == p.fails + refused
    && q.world.file == (if mailed == [] then p.world.file else Some(q.sent))
    && q.end == if tail != [] && tail[0] == Crashed then Died else Going
  }

  lemma WentMore(p: Progress, to: string, taken: bool, q: Progress, later: seq<string>, refused: nat,
                 tail: seq<Answer>)
    requires p.end == Going && p.world.answers != []
    requires p.world.answers[0] == (if taken then Delivered else Refused)
    requires Went(SendTo(p, to), q, later, refused, tail)
    ensures Went(p, q, (if taken then [to] else []) + later, refused + (if taken then 0 else 1), tail)
  {
    if taken {
      assert SendTo(p, to).sent == p.sent + {to};
      assert p.world.sends + [to] + later == p.world.sends + ([to] + later);
      assert (set a | a in [to] + later) == {to} + set a | a in later;
      if later == [] {
        assert p.sent + {to} + (set a | a in later) == p.sent + {to};
      }
    } else {
      assert [] + later == later;
    }
  }

  lemma {:induction false} RestGoes(p: Progress, pending: seq<string>, taken: seq<bool>, i: nat, connected: bool,
                                    tail: seq<Answer>)
    requires |pending| == |taken| && i <= |pending| && p.end == Going
    requires p.world.answers == Answers(taken, i, connected) + tail
    ensures var mailed := Taken(pending, taken, i);
            |mailed| <= |pending| - i
            && Went(p, Rest(p, pending, i, connected), mailed, |pending| - i - |mailed|, tail)
    decreases |pending| - i, if connected then 0 else 1
  {
    if i == |pending| {
      assert p.world.answers == tail && p.world.sends + [] == p.world.sends;
    } else if i % 8 == 0 && !connected {
      assert Next(p.world).answers == Answers(taken, i, true) + tail;
      RestGoes(Connect(p), pending, taken, i, true, tail);
    } else {
      assert p.world.answers[0] == if taken[i] then Delivered else Refused;
      assert Next(p.world).answers == Answers(taken, i + 1, false) + tail;
      RestGoes(SendTo(p, pending[i]), pending, taken, i + 1, false, tail);
      var later := Taken(pending, taken, i + 1);
      WentMore(p, pending[i], taken[i], Rest(p, pending, i, connected), later, |pending| - i - 1 - |later|, tail);
    }
  }

  /** A run without breakdowns mails every pending address that is taken, in
      order, and keeps the refused ones for later: the file is removed exactly
      when none was refused and the run was not cut off at its very end. */
  lemma RunGoes(recipients: seq<string>, resume: bool, w: World, taken: seq<bool>, tail: seq<Answer>)
    requires var done := if resume then Recorded(w.file) else {};
             |taken| == |Pending(recipients, done)| && w.answers == Answers(taken, 0, false) + tail
    ensures var done := if resume then Recorded(w.file) else {};
            var pending := Pending(recipients, done);
            var mailed := Taken(pending, taken, 0);
            var (v, p) := RunOnce(recipients, resume, w);
            && v.sends == w.sends + mailed && v.answers == tail && |mailed| <= |pending|
            && p.fails == |pending| - |mailed|
            && (if |mailed| == |pending| && (tail == [] || tail[0] != Crashed) then v.file == None
                else v.file == if mailed == [] then w.file else Some(done + set a | a in mailed))
  {
    var done := if resume then Recorded(w.file) else {};
    RestGoes(Progress(w, done, 0, Going), Pending(recipients, done), taken, 0, false, tail);
  }

  /** A run that gets no connection changes nothing. */
  lemma NoConnection(recipients: seq<string>, resume: bool, w: World)
    requires Pending(recipients, if resume then Recorded(w.file) else {}) != []
    requires w.answers == [] || w.answers[0] == Crashed
    ensures RunOnce(recipients, resume, w)
         == (w, Progress(w, if resume then Recorded(w.file) else {}, 0, Died))
  {
    var done := if resume then Recorded(w.file) else {};
    var p := Progress(w, done, 0, Going);
    assert Rest(p, Pending(recipients, done), 0, false) == Rest(Connect(p), Pending(recipients, done), 0, true);
  }

  // ---- the script ---------------------------------------------------------------------------------

  class Script {
    var answers: seq<Answer>
    var file: Option<set<string>>
    var sends: seq<string>

    ghost function Abs(): World
      reads this
    {
      World(answers, file, sends)
    }

    constructor (w: World)
      ensures Abs() == w
    {
      answers, file, sends := w.answers, w.file, w.sends;
    }

    method NewSmtpConn() returns (ok: bool)
      modifies this`answers
      ensures ok == Alive(old(Abs()))
      ensures Abs() == if ok then Next(old(Abs())) else old(Abs())
    {
      ok := answers != [] && answers[0] != Crashed;
      if ok {
        answers := answers[1..];
      }
    }

    method SendOne(to: string) returns (answer: Answer)
      modifies this`answers, this`sends
      ensures answer == if Alive(old(Abs())) then old(answers)[0] else Crashed
      ensures Abs() == if answer == Crashed then old(Abs())
                       else if answer == Delivered || answer == DeliveredThenCrashed then
                         Next(old(Abs())).(sends := old(sends) + [to])
                       else Next(old(Abs()))
    {
      if answers == [] {
        return Crashed;
      }
      answer := answers[0];
      if answer == Crashed {
        return;
      }
      answers := answers[1..];
      if answer == Delivered || answer == DeliveredThenCrashed {
        sends := sends + [to];
      }
    }

    method SendWithRetries(to: string) returns (verdict: Verdict)
      modifies this`answers, this`sends
      ensures (Abs(), verdict) == SendWithRetry(old(Abs()), to, 1)
    {
      for attempt := 1 to RETRY_LIMIT + 1
        invariant attempt <= RETRY_LIMIT ==> SendWithRetry(Abs(), to, attempt) == SendWithRetry(old(Abs()), to, 1)
        invariant attempt > RETRY_LIMIT ==> (Abs(), Failed) == SendWithRetry(old(Abs()), to, 1)
      {
        var answer := SendOne(to);
        match answer
        case Delivered => return Ok;
        case DeliveredThenCrashed => return Torn;
        case Crashed => return Dead;
        case Refused => return Failed;
        case Temporary =>
          if attempt < RETRY_LIMIT {
            var ok := NewSmtpConn();
            if !ok {
              return Dead;
            }
          }
      }
      verdict := Failed;
    }

    /** One address: send, record, count. */
    method Deliver(to: string, sent: set<string>, fails: nat) returns (sent': set<string>, fails': nat, end: End)
      modifies this
      ensures Progress(Abs(), sent', fails', end) == SendTo(Progress(old(Abs()), sent, fails, Going), to)
    {
      sent', fails', end := sent, fails, Going;
      var verdict := SendWithRetries(to);
      match verdict
      case Ok =>
        sent' := sent + {to};
        file := Some(sent');
      case Failed => fails' := fails + 1;
      case Dead => end := Died;
      case Torn => end := Lost(to);
    }

    /** One batch, over a connection that is already there. */
    method SendBatch(pending: seq<string>, start: nat, stop: nat, sent: set<string>, fails: nat)
      returns (sent': set<string>, fails': nat, end: End)
      requires start < stop <= |pending| && start % BATCH_SIZE == 0 && stop <= start + BATCH_SIZE
      modifies this
      ensures Rest(Progress(Abs(), sent', fails', end), pending, stop, false)
              == Rest(Progress(old(Abs()), sent, fails, Going), pending, start, true)
    {
      sent', fails', end := Deliver(pending[start], sent, fails);
      var i := start + 1;
      while i < stop && end == Going
        invariant start < i <= stop
        invariant Rest(Progress(Abs(), sent', fails', end), pending, i, false)
                  == Rest(Progress(old(Abs()), sent, fails, Going), pending, start, true)
      {
        sent', fails', end := Deliver(pending[i], sent', fails');
        i := i + 1;
      }
    }

    /** All batches, one connection each. */
    method SendBatches(pending: seq<string>, already: set<string>) returns (sent: set<string>, fails: nat, end: End)
      modifies this
      ensures Progress(Abs(), sent, fails, end) == Rest(Progress(old(Abs()), already, 0, Going), pending, 0, false)
    {
      sent, fails, end := already, 0, Going;
      var start := 0;
      while start < |pending|
        invariant start <= |pending| && (start % BATCH_SIZE == 0 || start == |pending|) && end == Going
        invariant Rest(Progress(Abs(), sent, fails, Going), pending, start, false)
                  == Rest(Progress(old(Abs()), already, 0, Going), pending, 0, false)
      {
        var ok := NewSmtpConn();
        if !ok {
          end := Died;
          return;
        }
        var stop := if start + BATCH_SIZE <= |pending| then start + BATCH_SIZE else |pending|;
        sent, fails, end := SendBatch(pending, start, stop, sent, fails);
        if end != Going {
          return;
        }
        start := stop;
      }
      if answers != [] && answers[0] == Crashed {
        end := Died;
      }
    }

    method Run(recipients: seq<string>, resume: bool) returns (sent: set<string>, fails: nat, end: End)
      modifies this
      ensures Abs() == RunOnce(recipients, resume, old(Abs())).0
      ensures var p := RunOnce(recipients, resume, old(Abs())).1; sent == p.sent && fails == p.fails && end == p.end
    {
      var already := {};
      if resume && file.Some? {
        already := file.value;
      }
      sent, fails, end := SendBatches(Pending(recipients, already), already);
      if end == Going && fails == 0 && file.Some? {
        file := None;
      }
    }
  }
}

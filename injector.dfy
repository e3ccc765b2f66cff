/**
 * The launcher that injects the browser script into Cursor's windows over
 * the Chrome DevTools Protocol (scripts/auto-inject-cursor.js): which
 * targets it picks, the script text it injects, the calls one injection
 * session makes, the sweep over the listed targets, the handler for targets
 * created later, the wait for the debugging port, and `main`, which chains
 * them.
 *
 * Every DevTools call and HTTP probe is an oracle: its outcome is a
 * parameter, and each session's calls are returned as a trace.
 */
module Injector {
  import opened Options
  import opened Text
  import opened Seqs

  const DefaultTimeoutMs: nat := 20000
  const RetryDelayMs: nat := 500

  // ---------------------------------------------------------------------------
  // Target selection
  // ---------------------------------------------------------------------------

  /** A DevTools target as listed or announced: its id, its `type` and its `url`, if any. */
  datatype TargetInfo = TargetInfo(id: string, kind: string, url: Option<string>)

  /** `String(t.url || '')` */
  function UrlOf(t: TargetInfo): string {
    if t.url.Some? then t.url.value else ""
  }

  predicate EditorKind(kind: string) {
    kind == "page" || kind == "webview" || kind == "other"
  }

  predicate EditorUrl(url: string) {
    || StartsWith(url, "vscode-file://")
    || StartsWith(url, "vscode-webview://")
    || Contains(url, "workbench")
    || StartsWith(url, "file://")
    || StartsWith(url, "devtools://")
  }

  /** `targetLooksRelevant`; `None` is a null or undefined target. */
  predicate TargetLooksRelevant(t: Option<TargetInfo>) {
    t.Some? && EditorKind(t.value.kind) && EditorUrl(UrlOf(t.value))
  }

  /** No target, and no target of another type, is relevant; a target without a URL is not either. */
  lemma IrrelevantTargets(t: TargetInfo)
    ensures !TargetLooksRelevant(None)
    ensures !EditorKind(t.kind) ==> !TargetLooksRelevant(Some(t))
    ensures t.url.None? ==> !TargetLooksRelevant(Some(t))
  {
    if t.url.None? {
      assert UrlOf(t) == "";
      assert !Contains("", "workbench");
    }
  }

  /** A page, webview or other target is relevant whenever its URL starts with one of the editor schemes. */
  lemma {:induction false} RelevantByScheme(id: string, kind: string, scheme: string, rest: string)
    requires EditorKind(kind)
    requires scheme in ["vscode-file://", "vscode-webview://", "file://", "devtools://"]
    ensures TargetLooksRelevant(Some(TargetInfo(id, kind, Some(scheme + rest))))
  {
    assert (scheme + rest)[..|scheme|] == scheme;
  }

  /** ... or whenever `workbench` occurs anywhere in its URL. */
  lemma {:induction false} RelevantByWorkbench(id: string, kind: string, before: string, after: string)
    requires EditorKind(kind)
    ensures TargetLooksRelevant(Some(TargetInfo(id, kind, Some(before + "workbench" + after))))
  {
    var url := before + "workbench" + after;
    assert url[|before|..|before| + |"workbench"|] == "workbench";
    assert OccursAt(url, "workbench", |before|);
  }

  /** `targets.filter(targetLooksRelevant)`. */
  function RelevantTargets(ts: seq<TargetInfo>): (r: seq<TargetInfo>)
    ensures |r| <= |ts|
    ensures forall t :: t in r <==> t in ts && TargetLooksRelevant(Some(t))
  {
    if ts == [] then []
    else
      var last := ts[|ts| - 1];
      assert ts == ts[..|ts| - 1] + [last];
      RelevantTargets(ts[..|ts| - 1]) + (if TargetLooksRelevant(Some(last)) then [last] else [])
  }

  /** One more target is kept, at the end, exactly when it looks relevant. */
  lemma RelevantTargetsSnoc(ts: seq<TargetInfo>, t: TargetInfo)
    ensures RelevantTargets([]) == []
    ensures RelevantTargets(ts + [t]) == RelevantTargets(ts) + (if TargetLooksRelevant(Some(t)) then [t] else [])
  {
    assert (ts + [t])[..|ts|] == ts;
  }

  /** Filtering keeps the order: the relevant targets of a concatenation are those of each part, in turn. */
  lemma {:induction false} RelevantTargetsAppend(a: seq<TargetInfo>, b: seq<TargetInfo>)
    ensures RelevantTargets(a + b) == RelevantTargets(a) + RelevantTargets(b)
    decreases |b|
  {
    if b == [] {
      assert a + b == a;
    } else {
      var b', x := b[..|b| - 1], b[|b| - 1];
      SplitLast(a, b);
      RelevantTargetsAppend(a, b');
      RelevantTargetsSnoc(a + b', x);
      RelevantTargetsSnoc(b', x);
      AppendAssoc(RelevantTargets(a), RelevantTargets(b'), if TargetLooksRelevant(Some(x)) then [x] else []);
    }
  }

  // ---------------------------------------------------------------------------
  // The injected source
  // ---------------------------------------------------------------------------

  const ScriptPrefix := ";(() => { try {\n"
  const ScriptSuffix := "\n} catch (e) { console.error('cursor-browser.js injection error', e); } })();"

  /** The IIFE with a `try`/`catch` that `buildInjectionSource` puts around the script. */
  function Wrap(raw: string): string {
    ScriptPrefix + raw + ScriptSuffix
  }

  /** The script inside a wrapped source, if `s` is one. */
  function Unwrap(s: string): Option<string> {
    if |s| >= |ScriptPrefix| + |ScriptSuffix| && StartsWith(s, ScriptPrefix) && s[|s| - |ScriptSuffix|..] == ScriptSuffix
    then Some(s[|ScriptPrefix|..|s| - |ScriptSuffix|])
    else None
  }

  /** Unwrapping a wrapped script gives the script back. */
  lemma {:induction false} UnwrapWrap(raw: string)
    ensures Unwrap(Wrap(raw)) == Some(raw)
  {
    var s := Wrap(raw);
    assert s[..|ScriptPrefix|] == ScriptPrefix;
    assert s[|s| - |ScriptSuffix|..] == ScriptSuffix;
    assert s[|ScriptPrefix|..|s| - |ScriptSuffix|] == raw;
  }

  /** Whatever unwraps is exactly the wrapping of what it unwraps to, so the wrapping loses nothing. */
  lemma {:induction false} WrapUnwrap(s: string)
    ensures Unwrap(s).Some? ==> Wrap(Unwrap(s).value) == s
  {
    if Unwrap(s).Some? {
      var raw := Unwrap(s).value;
      assert s == s[..|ScriptPrefix|] + raw + s[|s| - |ScriptSuffix|..];
    }
  }

  /** Different scripts give different sources. */
  lemma WrapInjective(a: string, b: string)
    ensures Wrap(a) == Wrap(b) ==> a == b
  {
    UnwrapWrap(a);
    UnwrapWrap(b);
  }

  /**
   * `buildInjectionSource` on the contents of `public/cursor-browser.js`;
   * `None` when the file is missing, where the source throws.
   */
  function BuildInjectionSource(script: Option<string>): (r: Option<string>)
    ensures r.Some? <==> script.Some?
    ensures r.Some? ==> Unwrap(r.value) == script
  {
    if script.None? then None
    else
      UnwrapWrap(script.value);
      Some(Wrap(script.value))
  }

  // ---------------------------------------------------------------------------
  // One injection session
  // ---------------------------------------------------------------------------

  /** The DevTools calls an injection session makes. */
  datatype CdpCall =
    | Attach(target: TargetInfo)
    | EnablePage
    | EnableRuntime
    | AddScript(source: string)
    | Evaluate(expression: string)
    | Close

  /**
   * Whether each call of a session succeeds: attaching (`CDP({ target })`),
   * the two `enable` calls and `addScriptToEvaluateOnNewDocument`. Whether
   * `evaluate` or `close` fails changes nothing the session does.
   */
  datatype SessionOutcomes = SessionOutcomes(attach: bool, page: bool, runtime: bool, addScript: bool)

  /**
   * `injectIntoTarget`: attach; both `enable` calls, issued together; the
   * persistent script; the immediate evaluation; the first failure skips the
   * rest, and `finally` closes a session that was opened.
   */
  function SessionTrace(target: TargetInfo, source: string, o: SessionOutcomes): seq<CdpCall> {
    [Attach(target)]
    + (if !o.attach then []
       else
         [EnablePage, EnableRuntime]
         + (if !(o.page && o.runtime) then []
            else [AddScript(source)] + (if o.addScript then [Evaluate(source)] else []))
         + [Close])
  }

  /**
   * A session attaches once, first. It is closed exactly when it was opened,
   * and then as its last call and only there. The script is installed
   * exactly when attaching and both `enable` calls succeeded, and evaluated
   * exactly when installing it succeeded too, immediately after it.
   */
  lemma SessionLifecycle(target: TargetInfo, source: string, o: SessionOutcomes)
    ensures var c := SessionTrace(target, source, o);
            && c[0] == Attach(target)
            && (forall i :: 0 < i < |c| ==> !c[i].Attach?)
            && (Close in c <==> o.attach)
            && (o.attach ==> c[|c| - 1] == Close && forall i :: 0 <= i < |c| - 1 ==> c[i] != Close)
            && (AddScript(source) in c <==> o.attach && o.page && o.runtime)
            && (Evaluate(source) in c <==> o.attach && o.page && o.runtime && o.addScript)
            && (forall i :: 0 <= i < |c| && c[i].Evaluate? ==> 0 < i && c[i - 1] == AddScript(source))
  {
  }

  /** The targets attached to by a sequence of calls, in order. */
  function Attached(calls: seq<CdpCall>): seq<TargetInfo> {
    if calls == [] then []
    else
      var last := calls[|calls| - 1];
      Attached(calls[..|calls| - 1]) + (if last.Attach? then [last.target] else [])
  }

  lemma {:induction false} AttachedAppend(a: seq<CdpCall>, b: seq<CdpCall>)
    ensures Attached(a + b) == Attached(a) + Attached(b)
    decreases |b|
  {
    if b == [] {
      assert a + b == a;
    } else {
      AttachedAppend(a, b[..|b| - 1]);
      assert (a + b)[..|a + b| - 1] == a + b[..|b| - 1];
    }
  }

  /** A session attaches to its own target and to nothing else. */
  lemma {:induction false} AttachedSession(target: TargetInfo, source: string, o: SessionOutcomes)
    ensures Attached(SessionTrace(target, source, o)) == [target]
  {
    var c := SessionTrace(target, source, o);
    var rest := c[1..];
    assert c == [Attach(target)] + rest;
    assert Attached([Attach(target)]) == [target] by {
      assert [Attach(target)][..0] == [];
    }
    assert Attached(rest) == [] by {
      NoAttach(rest);
    }
    AttachedAppend([Attach(target)], rest);
  }

  lemma {:induction false} NoAttach(calls: seq<CdpCall>)
    requires forall i :: 0 <= i < |calls| ==> !calls[i].Attach?
    ensures Attached(calls) == []
    decreases |calls|
  {
    if calls != [] {
      NoAttach(calls[..|calls| - 1]);
    }
  }

  /** `injectIntoTarget`; nothing escapes it, so it returns only the calls it made. */
  method InjectIntoTarget(target: TargetInfo, source: string, o: SessionOutcomes) returns (calls: seq<CdpCall>)
    ensures calls == SessionTrace(target, source, o)
  {
    calls := [Attach(target)];
    var client := o.attach;
    if client {
      calls := calls + [EnablePage, EnableRuntime];
      if o.page && o.runtime {
        calls := calls + [AddScript(source)];
        if o.addScript {
          calls := calls + [Evaluate(source)];
        }
      }
      calls := calls + [Close];
    }
  }

  // ---------------------------------------------------------------------------
  // The sweep and the feed of new targets
  // ---------------------------------------------------------------------------

  /** The sessions for `ts`, one after another, the i-th with outcomes `os[i]`. */
  function Sessions(ts: seq<TargetInfo>, source: string, os: seq<SessionOutcomes>): seq<CdpCall>
    requires |os| == |ts|
  {
    if ts == [] then []
    else Sessions(ts[..|ts| - 1], source, os[..|os| - 1]) + SessionTrace(ts[|ts| - 1], source, os[|os| - 1])
  }

  /** The sessions for `ts` attach to exactly `ts`, in order. */
  lemma {:induction false} AttachedSessions(ts: seq<TargetInfo>, source: string, os: seq<SessionOutcomes>)
    requires |os| == |ts|
    ensures Attached(Sessions(ts, source, os)) == ts
    decreases |ts|
  {
    if ts != [] {
      var n := |ts|;
      AttachedSessions(ts[..n - 1], source, os[..n - 1]);
      AttachedAppend(Sessions(ts[..n - 1], source, os[..n - 1]), SessionTrace(ts[n - 1], source, os[n - 1]));
      AttachedSession(ts[n - 1], source, os[n - 1]);
      assert ts[..n - 1] + [ts[n - 1]] == ts;
    }
  }

  /** The `for` loop of `main` over the relevant targets, one session each in list order. */
  method Sweep(targets: seq<TargetInfo>, source: string, os: seq<SessionOutcomes>) returns (calls: seq<CdpCall>)
    requires |os| == |RelevantTargets(targets)|
    ensures calls == Sessions(RelevantTargets(targets), source, os)
    ensures Attached(calls) == RelevantTargets(targets)
  {
    var filtered := RelevantTargets(targets);
    calls := [];
    var i := 0;
    while i < |filtered|
      invariant 0 <= i <= |filtered|
      invariant calls == Sessions(filtered[..i], source, os[..i])
    {
      var session := InjectIntoTarget(filtered[i], source, os[i]);
      assert filtered[..i + 1][..i] == filtered[..i] && os[..i + 1][..i] == os[..i];
      calls := calls + session;
      i := i + 1;
    }
    assert filtered[..i] == filtered && os[..i] == os;
    AttachedSessions(filtered, source, os);
  }

  /** The `targetCreated` handler: a session for a relevant target, nothing otherwise. */
  method OnTargetCreated(info: TargetInfo, source: string, o: SessionOutcomes) returns (calls: seq<CdpCall>)
    ensures calls == if TargetLooksRelevant(Some(info)) then SessionTrace(info, source, o) else []
    ensures Attached(calls) == if TargetLooksRelevant(Some(info)) then [info] else []
  {
    calls := [];
    if TargetLooksRelevant(Some(info)) {
      calls := InjectIntoTarget(info, source, o);
      AttachedSession(info, source, o);
    }
  }

  /** The handler run on each announced target in turn. */
  function FeedTrace(created: seq<TargetInfo>, source: string, os: seq<SessionOutcomes>): seq<CdpCall>
    requires |os| == |created|
  {
    if created == [] then []
    else
      var n := |created|;
      FeedTrace(created[..n - 1], source, os[..n - 1])
      + (if TargetLooksRelevant(Some(created[n - 1])) then SessionTrace(created[n - 1], source, os[n - 1]) else [])
  }

  /** The feed attaches to exactly the relevant announced targets, in order. */
  lemma {:induction false} AttachedFeed(created: seq<TargetInfo>, source: string, os: seq<SessionOutcomes>)
    requires |os| == |created|
    ensures Attached(FeedTrace(created, source, os)) == RelevantTargets(created)
    decreases |created|
  {
    if created != [] {
      var n := |created|;
      AttachedFeed(created[..n - 1], source, os[..n - 1]);
      var relevant := TargetLooksRelevant(Some(created[n - 1]));
      AttachedStep(FeedTrace(created[..n - 1], source, os[..n - 1]), RelevantTargets(created[..n - 1]),
                   created[n - 1], source, os[n - 1], relevant);
      FeedSplit(created, source, os);
    }
  }

  /** The feed and the filter over a non-empty list, with the last target split off. */
  lemma FeedSplit(created: seq<TargetInfo>, source: string, os: seq<SessionOutcomes>)
    requires |os| == |created| && created != []
    ensures var n := |created|;
            var relevant := TargetLooksRelevant(Some(created[n - 1]));
            && FeedTrace(created, source, os)
               == FeedTrace(created[..n - 1], source, os[..n - 1])
                  + (if relevant then SessionTrace(created[n - 1], source, os[n - 1]) else [])
            && RelevantTargets(created) == RelevantTargets(created[..n - 1]) + (if relevant then [created[n - 1]] else [])
  {
  }

  /** One more handler run: a session, and so one attachment, exactly when the target is relevant. */
  lemma AttachedStep(prev: seq<CdpCall>, kept: seq<TargetInfo>, t: TargetInfo, source: string, o: SessionOutcomes,
                     relevant: bool)
    requires Attached(prev) == kept
    ensures Attached(prev + (if relevant then SessionTrace(t, source, o) else []))
            == kept + (if relevant then [t] else [])
  {
    var tail := if relevant then SessionTrace(t, source, o) else [];
    AttachedAppend(prev, tail);
    if relevant {
      AttachedSession(t, source, o);
    } else {
      assert kept + [] == kept;
    }
  }

  /** The `targetCreated` subscription: the handler on each announced target, in order. */
  method Watch(created: seq<TargetInfo>, source: string, os: seq<SessionOutcomes>) returns (calls: seq<CdpCall>)
    requires |os| == |created|
    ensures calls == FeedTrace(created, source, os)
    ensures Attached(calls) == RelevantTargets(created)
  {
    calls := [];
    var i := 0;
    while i < |created|
      invariant 0 <= i <= |created|
      invariant calls == FeedTrace(created[..i], source, os[..i])
    {
      var more := OnTargetCreated(created[i], source, os[i]);
      assert created[..i + 1][..i] == created[..i] && os[..i + 1][..i] == os[..i];
      calls := calls + more;
      i := i + 1;
    }
    assert created[..i] == created && os[..i] == os;
    AttachedFeed(created, source, os);
  }

  /**
   * Nothing remembers the targets the sweep handled: a relevant target that
   * is listed and then announced is attached to twice.
   */
  lemma NoDedupAcrossSweepAndFeed(t: TargetInfo, source: string, o1: SessionOutcomes, o2: SessionOutcomes)
    requires TargetLooksRelevant(Some(t))
    ensures Attached(Sessions(RelevantTargets([t]), source, [o1]) + FeedTrace([t], source, [o2])) == [t, t]
  {
    assert [t][..0] == [];
    assert RelevantTargets([t]) == [t];
    AttachedSessions([t], source, [o1]);
    AttachedFeed([t], source, [o2]);
    AttachedAppend(Sessions([t], source, [o1]), FeedTrace([t], source, [o2]));
  }

  // ---------------------------------------------------------------------------
  // Waiting for the debugging port
  // ---------------------------------------------------------------------------

  /** What one `GET /json/version` probe ends with. */
  datatype Probe = Status(code: int) | RequestError | RequestTimeout

  predicate Ready(p: Probe) {
    p == Status(200)
  }

  /** The promise of `waitForCDP` after the probes seen so far: settled after `probes` probes, or not yet. */
  datatype Wait = Resolved(probes: nat) | Rejected(probes: nat) | Pending

  /**
   * `tryOnce` from probe `i` on, where `clock[j]` is `Date.now()` when probe
   * `j` ends: resolve on a 200; otherwise reject once more than `timeoutMs`
   * has elapsed since `start`, and probe again after `RetryDelayMs` if not.
   */
  function Settle(start: int, timeoutMs: int, probes: seq<Probe>, clock: seq<int>, i: nat): (w: Wait)
    requires |clock| == |probes| && i <= |probes|
    ensures w.Resolved? ==> i < w.probes <= |probes| && Ready(probes[w.probes - 1])
    ensures w.Rejected? ==> i < w.probes <= |probes| && !Ready(probes[w.probes - 1])
                            && clock[w.probes - 1] - start > timeoutMs
    ensures !w.Pending? ==> forall j :: i <= j < w.probes - 1 ==> !Ready(probes[j]) && clock[j] - start <= timeoutMs
    ensures w.Pending? ==> forall j :: i <= j < |probes| ==> !Ready(probes[j]) && clock[j] - start <= timeoutMs
    decreases |probes| - i
  {
    if i == |probes| then Pending
    else if Ready(probes[i]) then Resolved(i + 1)
    else if clock[i] - start > timeoutMs then Rejected(i + 1)
    else Settle(start, timeoutMs, probes, clock, i + 1)
  }

  /** `waitForCDP`, over the probes that have ended so far. */
  method WaitForCdp(start: int, timeoutMs: int, probes: seq<Probe>, clock: seq<int>) returns (w: Wait)
    requires |clock| == |probes|
    ensures w == Settle(start, timeoutMs, probes, clock, 0)
  {
    var i := 0;
    while i < |probes|
      invariant 0 <= i <= |probes|
      invariant Settle(start, timeoutMs, probes, clock, 0) == Settle(start, timeoutMs, probes, clock, i)
    {
      if probes[i] == Status(200) {
        return Resolved(i + 1);
      }
      if clock[i] - start > timeoutMs {
        return Rejected(i + 1);
      }
      i := i + 1;
    }
    return Pending;
  }

  /** A clock that the retry loop could produce: the first probe ends after `start`, each later one at least a retry delay after the previous. */
  predicate PacedClock(start: int, clock: seq<int>) {
    && (|clock| > 0 ==> clock[0] >= start)
    && forall j :: 0 < j < |clock| ==> clock[j] >= clock[j - 1] + RetryDelayMs
  }

  lemma {:induction false} PacedClockGrows(start: int, clock: seq<int>, j: nat)
    requires PacedClock(start, clock) && j < |clock|
    ensures clock[j] >= start + RetryDelayMs * j
  {
    if j > 0 {
      PacedClockGrows(start, clock, j - 1);
    }
  }

  /**
   * Under a paced clock the wait settles within `timeoutMs / 500 + 2`
   * probes: by then more than `timeoutMs` has elapsed.
   */
  lemma SettlesWithinBudget(start: int, timeoutMs: nat, probes: seq<Probe>, clock: seq<int>)
    requires |clock| == |probes| && PacedClock(start, clock)
    requires |probes| >= timeoutMs / RetryDelayMs + 2
    ensures !Settle(start, timeoutMs, probes, clock, 0).Pending?
  {
    var j := timeoutMs / RetryDelayMs + 1;
    PacedClockGrows(start, clock, j);
    assert RetryDelayMs * j > timeoutMs;
  }

  // ---------------------------------------------------------------------------
  // main
  // ---------------------------------------------------------------------------

  /**
   * `main` once Cursor has been spawned, with the outcome of everything it
   * waits on: whether the executable was found, the probes, the script
   * file, the result of `CDP.List` (`None` when it rejects), the sessions,
   * whether the watcher connection was set up, and the targets announced to
   * it. `exitCode` is the code `process.exit` is called with, `None` when
   * `main` never calls `process.exit`.
   */
  method Run(cursorFound: bool, start: int, probes: seq<Probe>, clock: seq<int>, script: Option<string>,
              targets: Option<seq<TargetInfo>>, os: seq<SessionOutcomes>, watching: bool,
              created: seq<TargetInfo>, createdOs: seq<SessionOutcomes>)
    returns (exitCode: Option<int>, calls: seq<CdpCall>)
    requires |clock| == |probes| && |createdOs| == |created|
    requires targets.Some? ==> |os| == |RelevantTargets(targets.value)|
    ensures exitCode == Some(2) <==> !cursorFound
    ensures var ready := Settle(start, DefaultTimeoutMs, probes, clock, 0).Resolved?;
            var proceeds := cursorFound && ready && script.Some? && targets.Some?;
            && (exitCode == Some(1) <==> cursorFound && !Settle(start, DefaultTimeoutMs, probes, clock, 0).Pending? && !proceeds)
            && (exitCode == None <==> cursorFound && (Settle(start, DefaultTimeoutMs, probes, clock, 0).Pending? || proceeds))
            && (calls != [] ==> proceeds)
            && (proceeds ==> exitCode == None
                             && Attached(calls) == RelevantTargets(targets.value)
                                                   + (if watching then RelevantTargets(created) else []))
  {
    calls := [];
    if !cursorFound {
      return Some(2), [];
    }
    var ready := WaitForCdp(start, DefaultTimeoutMs, probes, clock);
    if ready.Pending? {
      return None, [];
    }
    if ready.Rejected? {
      return Some(1), [];
    }
    var source := BuildInjectionSource(script);
    if source.None? || targets.None? {
      return Some(1), [];
    }
    calls := Sweep(targets.value, source.value, os);
    exitCode := None;
    if watching {
      var more := Watch(created, source.value, createdOs);
      AttachedAppend(calls, more);
      calls := calls + more;
    } else {
      assert RelevantTargets(targets.value) + [] == RelevantTargets(targets.value);
    }
  }
}

/** The runtime_scenarios timeline: validation, and what a valid timeline looks like. */
module Scenario {
  import opened Prelude
  import opened RoleModel
  import opened Topology

  /** A JSON value as the validator distinguishes them; booleans, strings, lists and null are Other. */
  datatype Raw = Absent | Number(value: real) | Table(entries: seq<Field>) | Other

  datatype Field = Field(key: AppId, value: Raw)

  /** `axes` are those of cpu, ram and net the phase sets; `startText` is how its start prints. */
  datatype RawPhase = NotAnObject | RawPhase(id: string, startText: string, axes: set<string>, start: Raw, end: Raw,
      x: Raw)

  datatype RawTimeline = Undeclared | NotAList | Phases(phases: seq<RawPhase>)

  datatype Fault = TimelineIsNotAList | BadPhase(index: nat)

  ghost predicate SignalOk(x: Raw, sources: set<AppId>) {
    || x.Number?
    || (x.Table? && x.entries != [] && forall f | f in x.entries :: f.key in sources && f.value.Number?)
  }

  ghost predicate WindowOk(ph: RawPhase) {
    ph.RawPhase? && ph.axes == {} && ph.start.Number? && ph.end.Number? && ph.start.value < ph.end.value
  }

  /** Where phase i must begin: at 0, then where the previous phase ended. */
  ghost function ExpectedStart(phases: seq<RawPhase>, i: nat): real
    requires i <= |phases| && (i > 0 ==> WindowOk(phases[i - 1]))
  {
    if i == 0 then 0.0 else phases[i - 1].end.value
  }

  ghost predicate PhaseOk(phases: seq<RawPhase>, i: nat, sources: set<AppId>)
    requires i < |phases|
  {
    && WindowOk(phases[i]) && (i > 0 ==> WindowOk(phases[i - 1]))
    && phases[i].start.value == ExpectedStart(phases, i)
    && SignalOk(phases[i].x, sources)
  }

  ghost predicate PrefixOk(phases: seq<RawPhase>, n: nat, sources: set<AppId>)
    requires n <= |phases|
  {
    forall k {:trigger PhaseOk(phases, k, sources)} | 0 <= k < n :: PhaseOk(phases, k, sources)
  }

  method ValidatePhaseX(x: Raw, sources: set<AppId>) returns (ok: bool)
    ensures ok <==> SignalOk(x, sources)
  {
    if x.Number? {
      return true;
    }
    if !x.Table? || x.entries == [] {
      return false;
    }
    for i := 0 to |x.entries|
      invariant forall f | f in x.entries[..i] :: f.key in sources && f.value.Number?
    {
      if x.entries[i].key !in sources || !x.entries[i].value.Number? {
        return false;
      }
    }
    assert x.entries[..|x.entries|] == x.entries;
    ok := true;
  }

  /** Accepts exactly the contiguous timelines, and otherwise names the first phase at fault. */
  method ValidateScenarios(timeline: RawTimeline, sources: set<AppId>) returns (fault: Option<Fault>)
    ensures fault.None? <==>
            timeline.Undeclared? || (timeline.Phases? && PrefixOk(timeline.phases, |timeline.phases|, sources))
    ensures fault == Some(TimelineIsNotAList) <==> timeline.NotAList?
    ensures fault.Some? && fault.value.BadPhase? ==>
              && timeline.Phases? && fault.value.index < |timeline.phases|
              && PrefixOk(timeline.phases, fault.value.index, sources)
              && !PhaseOk(timeline.phases, fault.value.index, sources)
  {
    if timeline.Undeclared? {
      return None;
    }
    if timeline.NotAList? {
      return Some(TimelineIsNotAList);
    }
    var phases, previousEnd := timeline.phases, 0.0;
    for i := 0 to |phases|
      invariant PrefixOk(phases, i, sources) && (i > 0 ==> WindowOk(phases[i - 1]))
      invariant previousEnd == ExpectedStart(phases, i)
    {
      var ph := phases[i];
      if ph.NotAnObject? || ph.axes != {} || !ph.start.Number? || !ph.end.Number? || ph.end.value <= ph.start.value
         || ph.start.value != previousEnd {
        assert !PhaseOk(phases, i, sources);
        return Some(BadPhase(i));
      }
      previousEnd := ph.end.value;
      var ok := ValidatePhaseX(ph.x, sources);
      if !ok {
        assert !PhaseOk(phases, i, sources);
        return Some(BadPhase(i));
      }
    }
    fault := None;
  }

  // ---- the typed timeline ----

  datatype Phase<+X> = Phase(id: string, start: real, end: real, x: X)

  ghost predicate Contiguous<X>(phases: seq<Phase<X>>) {
    && (forall i | 0 <= i < |phases| :: phases[i].start < phases[i].end)
    && (phases != [] ==> phases[0].start == 0.0)
    && forall i, j | 0 <= i && j == i + 1 < |phases| :: phases[j].start == phases[i].end
  }

  function EntriesOf(fields: seq<Field>): seq<Entry> {
    seq(|fields|, i requires 0 <= i < |fields| =>
      Entry(fields[i].key, if fields[i].value.Number? then fields[i].value.value else 0.0))
  }

  function SignalOf(x: Raw): AppSignal {
    match x
    case Number(v) => Everywhere(v)
    case Table(entries) => PerApp(EntriesOf(entries))
    case _ => Everywhere(0.0)
  }

  /** A phase without an id is known by its printed start. */
  function EffectiveId(ph: RawPhase): string
    requires ph.RawPhase?
  {
    if ph.id != "" then ph.id else ph.startText
  }

  lemma WindowsAreOk(phases: seq<RawPhase>, sources: set<AppId>)
    requires PrefixOk(phases, |phases|, sources)
    ensures forall i | 0 <= i < |phases| :: WindowOk(phases[i])
  {
    forall i | 0 <= i < |phases|
      ensures WindowOk(phases[i])
    {
      assert PhaseOk(phases, i, sources);
    }
  }

  ghost function Typed(phases: seq<RawPhase>, sources: set<AppId>): seq<Phase<AppSignal>>
    requires PrefixOk(phases, |phases|, sources)
  {
    WindowsAreOk(phases, sources);
    seq(|phases|, i requires 0 <= i < |phases| && WindowOk(phases[i]) =>
      Phase(EffectiveId(phases[i]), phases[i].start.value, phases[i].end.value, SignalOf(phases[i].x)))
  }

  /** What validation buys: the typed timeline is contiguous from 0, and every per-app phase keys on source
      apps only. */
  lemma {:induction false} ValidTimelineIsContiguous(phases: seq<RawPhase>, sources: set<AppId>)
    requires PrefixOk(phases, |phases|, sources)
    ensures Contiguous(Typed(phases, sources))
    ensures forall i, e | 0 <= i < |phases| && Typed(phases, sources)[i].x.PerApp? &&
            e in Typed(phases, sources)[i].x.entries ::
              e.app in sources
  {
    WindowsAreOk(phases, sources);
    forall i, j | 0 <= i && j == i + 1 < |phases|
      ensures Typed(phases, sources)[j].start == Typed(phases, sources)[i].end
    {
      assert PhaseOk(phases, j, sources);
    }
    if phases != [] {
      assert PhaseOk(phases, 0, sources);
    }
    forall i, e | 0 <= i < |phases| && Typed(phases, sources)[i].x.PerApp? && e in Typed(phases, sources)[i].x.entries
      ensures e.app in sources
    {
      assert PhaseOk(phases, i, sources);
      var k :| 0 <= k < |phases[i].x.entries| && e == EntriesOf(phases[i].x.entries)[k];
      assert phases[i].x.entries[k] in phases[i].x.entries;
    }
  }

  // ---- the timeline in role space ----

  /** The typed timeline with every phase's x rekeyed to roles. */
  ghost function Timeline(phases: seq<RawPhase>, sources: set<AppId>, byApp: map<AppId, Role>): seq<Phase<Signal>>
    requires PrefixOk(phases, |phases|, sources)
  {
    var typed := Typed(phases, sources);
    seq(|typed|, i requires 0 <= i < |typed| =>
      Phase(typed[i].id, typed[i].start, typed[i].end, XToRoles(typed[i].x, byApp)))
  }

  lemma TimelineAt(phases: seq<RawPhase>, sources: set<AppId>, byApp: map<AppId, Role>, i: nat)
    requires PrefixOk(phases, |phases|, sources) && i < |phases|
    ensures WindowOk(phases[i])
    ensures Timeline(phases, sources, byApp)[i] ==
            Phase(EffectiveId(phases[i]), phases[i].start.value, phases[i].end.value,
                XToRoles(SignalOf(phases[i].x), byApp))
  {
    WindowsAreOk(phases, sources);
    hide PrefixOk;
  }

  /** A phase goes by its declared id, and without one by its printed start. */
  lemma {:induction false} PhasesKeepTheirNames(phases: seq<RawPhase>, sources: set<AppId>, byApp: map<AppId, Role>,
                                                i: nat, j: nat)
    requires PrefixOk(phases, |phases|, sources) && i < |phases| && j < |phases|
    ensures WindowOk(phases[i]) && WindowOk(phases[j])
    ensures var timeline := Timeline(phases, sources, byApp);
            && (phases[i].id != "" ==> timeline[i].id == phases[i].id)
            && (phases[i].id == "" ==> timeline[i].id == phases[i].startText)
            && (phases[i].id == "" && phases[j].id == "" ==>
                 (timeline[i].id == timeline[j].id <==> phases[i].startText == phases[j].startText))
  {
    TimelineAt(phases, sources, byApp, i);
    TimelineAt(phases, sources, byApp, j);
    hide Timeline, PrefixOk;
  }

  /** A phase keeps its window, and its x: a number for everybody, or for each listed app that runs as a role of its own
      that app's number. */
  lemma {:induction false} PhasesKeepTheirInputs(phases: seq<RawPhase>, sources: set<AppId>, byApp: map<AppId, Role>,
                                                 i: nat)
    requires PrefixOk(phases, |phases|, sources) && i < |phases|
    ensures WindowOk(phases[i])
    ensures var ph := Timeline(phases, sources, byApp)[i];
            && ph.start == phases[i].start.value && ph.end == phases[i].end.value
            && (phases[i].x.Number? ==> ph.x == Uniform(phases[i].x.value))
            && (phases[i].x.Table? ==>
                 && ph.x.PerRole?
                 && forall k | 0 <= k < |phases[i].x.entries| && OwnsItsRole(phases[i].x.entries, byApp, k) ::
                      var f := phases[i].x.entries[k];
                      f.value.Number? && byApp[f.key] in ph.x.xs && ph.x.xs[byApp[f.key]] == f.value.value)
  {
    TimelineAt(phases, sources, byApp, i);
    assert PhaseOk(phases, i, sources);
    hide Timeline, PrefixOk;
    if phases[i].x.Table? {
      var fields := phases[i].x.entries;
      forall k | 0 <= k < |fields| && OwnsItsRole(fields, byApp, k)
        ensures var xs := RekeyedEntries(EntriesOf(fields), byApp);
                fields[k].value.Number? && byApp[fields[k].key] in xs &&
                    xs[byApp[fields[k].key]] == fields[k].value.value
      {
        assert fields[k] in fields;
        OwnEntryIsKept(EntriesOf(fields), byApp, k);
      }
    }
  }

  /** No other entry's app runs as the role of entry k's. */
  ghost predicate OwnsItsRole(fields: seq<Field>, byApp: map<AppId, Role>, k: nat)
    requires k < |fields|
  {
    && fields[k].key in byApp
    && forall j | 0 <= j < |fields| && j != k :: fields[j].key in byApp ==> byApp[fields[j].key] != byApp[fields[k].key]
  }

  lemma {:induction false} OwnEntryIsKept(entries: seq<Entry>, byApp: map<AppId, Role>, k: nat)
    requires k < |entries| && entries[k].app in byApp
    requires forall j | 0 <= j < |entries| && j != k :: entries[j].app in byApp ==>
             byApp[entries[j].app] != byApp[entries[k].app]
    ensures var xs := RekeyedEntries(entries, byApp);
            byApp[entries[k].app] in xs && xs[byApp[entries[k].app]] == entries[k].x
  {
    var n := |entries| - 1;
    if k < n {
      assert entries[..n][k] == entries[k] && forall j | 0 <= j < n :: entries[..n][j] == entries[j];
      OwnEntryIsKept(entries[..n], byApp, k);
    }
  }

  /** What an accepted phase looks like, field by field. */
  ghost predicate IsAccepted(phases: seq<RawPhase>, i: nat, sources: set<AppId>)
    requires i < |phases|
  {
    && phases[i].RawPhase? && phases[i].axes == {}
    && phases[i].start.Number? && phases[i].end.Number? && phases[i].start.value < phases[i].end.value
    && (i == 0 ==> phases[i].start.value == 0.0)
    && (i > 0 ==> phases[i - 1].RawPhase? && phases[i - 1].end == phases[i].start)
    && InputIsAccepted(phases[i].x, sources)
  }

  /** The timelines accepted are exactly those whose phases look like that. */
  lemma {:induction false} AcceptedExactlyWhen(phases: seq<RawPhase>, sources: set<AppId>)
    ensures PrefixOk(phases, |phases|, sources) <==> forall i | 0 <= i < |phases| :: IsAccepted(phases, i, sources)
  {
    if PrefixOk(phases, |phases|, sources) {
      forall i | 0 <= i < |phases|
        ensures IsAccepted(phases, i, sources)
      {
        assert PhaseOk(phases, i, sources);
        InputsAgree(phases[i].x, sources);
      }
    }
    if forall i | 0 <= i < |phases| :: IsAccepted(phases, i, sources) {
      forall i | 0 <= i < |phases|
        ensures PhaseOk(phases, i, sources)
      {
        assert IsAccepted(phases, i, sources);
        if i > 0 {
          assert IsAccepted(phases, i - 1, sources);
        }
        InputsAgree(phases[i].x, sources);
      }
    }
  }

  lemma InputsAgree(x: Raw, sources: set<AppId>)
    ensures SignalOk(x, sources) <==> InputIsAccepted(x, sources)
  {
  }

  /** A number, or a table with at least one line and only numbers, for source apps only. */
  ghost predicate InputIsAccepted(x: Raw, sources: set<AppId>) {
    match x
    case Number(_) => true
    case Table(entries) => |entries| > 0 && forall k | 0 <= k < |entries| ::
        entries[k].key in sources && entries[k].value.Number?
    case _ => false
  }

  /** The timeline the runner is handed. */
  method ScenarioXTimeline(phases: seq<RawPhase>, byApp: map<AppId, Role>, ghost sources: set<AppId>)
    returns (timeline: seq<Phase<Signal>>)
    requires PrefixOk(phases, |phases|, sources)
    ensures timeline == Timeline(phases, sources, byApp)
  {
    timeline := [];
    for i := 0 to |phases|
      invariant |timeline| == i && timeline == Timeline(phases, sources, byApp)[..i]
    {
      TimelineAt(phases, sources, byApp, i);
      hide Timeline, PrefixOk;
      var x := RekeySignal(SignalOf(phases[i].x), byApp);
      timeline := timeline + [Phase(EffectiveId(phases[i]), phases[i].start.value, phases[i].end.value, x)];
    }
  }

  lemma {:induction false} TimelineIsContiguous(phases: seq<RawPhase>, sources: set<AppId>, byApp: map<AppId, Role>)
    requires PrefixOk(phases, |phases|, sources)
    ensures Contiguous(Timeline(phases, sources, byApp)) && |Timeline(phases, sources, byApp)| == |phases|
  {
    ValidTimelineIsContiguous(phases, sources);
    hide PrefixOk, Typed;
  }

  ghost predicate Covers<X>(ph: Phase<X>, t: real) {
    ph.start <= t < ph.end
  }

  ghost function End<X>(phases: seq<Phase<X>>): real {
    if phases == [] then 0.0 else phases[|phases| - 1].end
  }

  lemma {:induction false} StartsIncrease<X>(phases: seq<Phase<X>>, i: nat, j: nat)
    requires Contiguous(phases) && i < j < |phases|
    ensures phases[i].end <= phases[j].start
  {
    if i + 1 < j {
      StartsIncrease(phases, i, j - 1);
      assert phases[j].start == phases[j - 1].end;
    }
  }

  lemma {:induction false} FindCover<X>(phases: seq<Phase<X>>, t: real) returns (i: nat)
    requires Contiguous(phases) && 0.0 <= t < End(phases)
    ensures i < |phases| && Covers(phases[i], t)
  {
    var n := |phases| - 1;
    if phases[n].start <= t {
      i := n;
    } else {
      assert n > 0 && phases[n].start == phases[n - 1].end;
      i := FindCover(phases[..n], t);
    }
  }

  /** The windows of a contiguous timeline partition [0, end): inside, exactly one covers t; outside, none. */
  lemma {:induction false} WindowsPartition<X>(phases: seq<Phase<X>>, t: real)
    requires Contiguous(phases)
    ensures 0.0 <= t < End(phases) <==> exists i :: 0 <= i < |phases| && Covers(phases[i], t)
    ensures forall i, j | 0 <= i < |phases| && 0 <= j < |phases| && Covers(phases[i], t) && Covers(phases[j], t) ::
            i == j
  {
    if 0.0 <= t < End(phases) {
      var i := FindCover(phases, t);
    }
    forall i, j | 0 <= i < j < |phases| && Covers(phases[i], t) && Covers(phases[j], t)
      ensures false
    {
      StartsIncrease(phases, i, j);
    }
    forall i | 0 <= i < |phases| && Covers(phases[i], t)
      ensures 0.0 <= t < End(phases)
    {
      if i > 0 {
        StartsIncrease(phases, 0, i);
      }
      if i < |phases| - 1 {
        StartsIncrease(phases, i, |phases| - 1);
      }
    }
  }
}

/**
 * The values behind the concierge console of src/pages/Home.jsx and the pure
 * updaters the page passes to its state setters: the memory filters, the
 * checklist append, the status-overview arithmetic and one agent's step of
 * the trip-planning scenario.
 */
module HomeState {
  import opened Wrappers

  /** The five agents, in the order of `AGENT_IDS`. */
  datatype AgentId = Lifestyle | Access | Tech | Wellness | Concierge

  const AgentIds: seq<AgentId> := [Lifestyle, Access, Tech, Wellness, Concierge]

  lemma AgentIdsComplete()
    ensures forall a: AgentId :: a in AgentIds
  {
    forall a: AgentId ensures a in AgentIds {
      match a
      case Lifestyle => assert AgentIds[0] == a;
      case Access => assert AgentIds[1] == a;
      case Tech => assert AgentIds[2] == a;
      case Wellness => assert AgentIds[3] == a;
      case Concierge => assert AgentIds[4] == a;
    }
  }

  datatype Status = Idle | Working | Done

  datatype AgentState = AgentState(status: Status, log: string)

  datatype ItemKind = Checkbox | Alert

  datatype TaskItem = TaskItem(kind: ItemKind, text: string, checked: bool)

  datatype Role = User | Ai | System

  /** A transcript entry; only entries posted through `addMessage` carry a timestamp. */
  datatype Message = Message(role: Role, text: string, timestamp: Option<int>)

  /** A memory fact; `kind` is the source's `type` tag and `agent` the id of the agent it came from. */
  datatype Memory = Memory(id: int, kind: string, content: string, agent: string, date: string, isNew: bool)

  /** The string leaves of the active locale's table, by dotted key: the page's view of `t`. */
  type Translator = map<string, string>

  /** The value of the translation context the page reads: the active locale and its `t`. */
  datatype I18nContext = I18nContext(locale: string, t: Translator)

  /** `t(key)` for a key of a string: its text, or the key itself when the table has none. */
  function T(t: Translator, key: string): string
  {
    if key in t then t[key] else key
  }

  // ------------------------------------------------- translation keys

  /** The keys of the locale tables the page reads. */
  const AgentsIdle: string := "agents.idle"
  const AlertFlightChange: string := "alert.flightChange"
  const AlertNewFlight: string := "alert.newFlight"
  const AlertRebooking: string := "alert.rebooking"
  const AlertSolved: string := "alert.solved"
  const AlertTitle: string := "alert.title"
  const DemoAccessTask: string := "demo.accessTask"
  const DemoAnalyzingDiet: string := "demo.analyzingDiet"
  const DemoConfirmTrip: string := "demo.confirmTrip"
  const DemoDefaultTask: string := "demo.defaultTask"
  const DemoDestination: string := "demo.destination"
  const DemoDietAdjust: string := "demo.dietAdjust"
  const DemoDuration: string := "demo.duration"
  const DemoInitialMessage: string := "demo.initialMessage"
  const DemoLifestyleTask: string := "demo.lifestyleTask"
  const DemoMemoryMatched: string := "demo.memoryMatched"
  const DemoMemoryTuning: string := "demo.memoryTuning"
  const DemoNewMemoryContent: string := "demo.newMemoryContent"
  const DemoReadingMemory: string := "demo.readingMemory"
  const DemoReadingProfile: string := "demo.readingProfile"
  const DemoStatusSummaryMsg: string := "demo.statusSummaryMsg"
  const DemoUpdateDone: string := "demo.updateDone"
  const DemoVoiceResult: string := "demo.voiceResult"
  const DemoVoiceText: string := "demo.voiceText"

  /** The placeholders the page fills in translated templates, and the other literals it writes. */
  const ContentPlaceholder: string := "{content}"
  const DestinationPlaceholder: string := "{destination}"
  const AlertSeparator: string := ": "

  // ---------------------------------------------------------------- memories

  /** `(t('memories.initial') || []).map((m, i) => ({ ...m, id: i + 1 }))`, given the seed list. */
  function InitialMemories(seeds: seq<Memory>): (r: seq<Memory>)
    ensures |r| == |seeds|
    ensures forall i :: 0 <= i < |r| ==> r[i].id == i + 1
    ensures forall i :: 0 <= i < |r| ==> r[i].(id := seeds[i].id) == seeds[i]
    ensures forall i, j :: 0 <= i < j < |r| ==> r[i].id != r[j].id
  {
    seq(|seeds|, i requires 0 <= i < |seeds| => seeds[i].(id := i + 1))
  }

  /** `ms.filter(m => m.id !== id)`: every entry with that id goes, the others stay. */
  function RemoveId(ms: seq<Memory>, id: int): (r: seq<Memory>)
    ensures |r| <= |ms|
    ensures forall m :: m in r <==> m in ms && m.id != id
    decreases |ms|
  {
    if ms == [] then [] else (if ms[0].id == id then [] else [ms[0]]) + RemoveId(ms[1..], id)
  }

  /** The filter works piecewise, so the surviving entries keep their relative order. */
  lemma {:induction false} RemoveIdConcat(a: seq<Memory>, b: seq<Memory>, id: int)
    ensures RemoveId(a + b, id) == RemoveId(a, id) + RemoveId(b, id)
    decreases |a|
  {
    if a != [] {
      assert (a + b)[1..] == a[1..] + b;
      RemoveIdConcat(a[1..], b, id);
    } else {
      assert a + b == b;
    }
  }

  /** Without an entry of that id the filter changes nothing. */
  lemma {:induction false} RemoveIdNoMatch(ms: seq<Memory>, id: int)
    requires forall m :: m in ms ==> m.id != id
    ensures RemoveId(ms, id) == ms
    decreases |ms|
  {
    if ms != [] {
      RemoveIdNoMatch(ms[1..], id);
      assert [ms[0]] + ms[1..] == ms;
    }
  }

  /** Rejecting the same id twice is the same as rejecting it once. */
  lemma RemoveIdIdempotent(ms: seq<Memory>, id: int)
    ensures RemoveId(RemoveId(ms, id), id) == RemoveId(ms, id)
  {
    RemoveIdNoMatch(RemoveId(ms, id), id);
  }

  /** The memory the voice demo proposes, attributed to the lifestyle agent. */
  function VoiceMemory(id: int, t: Translator, locale: string): Memory
  {
    Memory(id, "habit", T(t, DemoNewMemoryContent), "lifestyle", if locale == "zh" then "\U{521A}\U{521A}" else "Just now", true)
  }

  // ------------------------------------------------------------------ agents

  /** Every agent has an entry (reading the status of a missing one would throw). */
  predicate AllAgentsPresent(states: map<AgentId, AgentState>)
  {
    forall a: AgentId :: a in states
  }

  /** The initial status table: every agent idle with the given log line. */
  function IdleAgents(log: string): (r: map<AgentId, AgentState>)
    ensures AllAgentsPresent(r)
    ensures forall a: AgentId :: r[a] == AgentState(Idle, log)
  {
    AgentIdsComplete();
    map a: AgentId | a in AgentIds :: AgentState(Idle, log)
  }

  /** `ids.filter(id => states[id].status === st).length`. */
  function CountStatus(ids: seq<AgentId>, states: map<AgentId, AgentState>, st: Status): (n: nat)
    requires forall a :: a in ids ==> a in states
    ensures n <= |ids|
    decreases |ids|
  {
    if ids == [] then 0
    else (if states[ids[0]].status == st then 1 else 0) + CountStatus(ids[1..], states, st)
  }

  /** Every agent is counted under exactly one of the three statuses. */
  lemma {:induction false} CountsPartition(ids: seq<AgentId>, states: map<AgentId, AgentState>)
    requires forall a :: a in ids ==> a in states
    ensures CountStatus(ids, states, Done) + CountStatus(ids, states, Working) + CountStatus(ids, states, Idle) == |ids|
    decreases |ids|
  {
    if ids != [] {
      CountsPartition(ids[1..], states);
    }
  }

  // -------------------------------------------------------------- checklists

  /** `sections[s] || []`. */
  function Section(sections: map<AgentId, seq<TaskItem>>, s: AgentId): seq<TaskItem>
  {
    if s in sections then sections[s] else []
  }

  /** The `addFormItem` update: append to one section, creating it if absent. */
  function AddItem(sections: map<AgentId, seq<TaskItem>>, s: AgentId, item: TaskItem): (r: map<AgentId, seq<TaskItem>>)
    ensures r.Keys == sections.Keys + {s}
    ensures Section(r, s) == Section(sections, s) + [item]
    ensures forall a :: a != s ==> Section(r, a) == Section(sections, a)
  {
    sections[s := Section(sections, s) + [item]]
  }

  /** The trip form: one state object holding the destination, the duration and the checklist sections. */
  datatype FormData = FormData(destination: string, duration: string, sections: map<AgentId, seq<TaskItem>>)

  /** A section exists only once an item was appended to it. */
  predicate SectionsNonEmpty(sections: map<AgentId, seq<TaskItem>>)
  {
    forall a :: a in sections ==> sections[a] != []
  }

  /** The number of checked items of one section. */
  function CountChecked(items: seq<TaskItem>): (n: nat)
    ensures n <= |items|
    decreases |items|
  {
    if items == [] then 0 else (if items[0].checked then 1 else 0) + CountChecked(items[1..])
  }

  lemma {:induction false} CountCheckedAppend(items: seq<TaskItem>, item: TaskItem)
    ensures CountChecked(items + [item]) == CountChecked(items) + (if item.checked then 1 else 0)
    decreases |items|
  {
    if items == [] {
      assert items + [item] == [item];
    } else {
      assert (items + [item])[1..] == items[1..] + [item];
      CountCheckedAppend(items[1..], item);
    }
  }

  /** The items of the sections named in `ids`, counted. */
  function SumLen(ids: seq<AgentId>, sections: map<AgentId, seq<TaskItem>>): nat
    decreases |ids|
  {
    if ids == [] then 0 else |Section(sections, ids[0])| + SumLen(ids[1..], sections)
  }

  /** The checked items of the sections named in `ids`, counted. */
  function SumChecked(ids: seq<AgentId>, sections: map<AgentId, seq<TaskItem>>): nat
    decreases |ids|
  {
    if ids == [] then 0 else CountChecked(Section(sections, ids[0])) + SumChecked(ids[1..], sections)
  }

  /** `Object.values(sections).flat().length`: every key is an agent id, so summing over the agents covers all sections. */
  function TotalTasks(sections: map<AgentId, seq<TaskItem>>): nat
  {
    SumLen(AgentIds, sections)
  }

  /** `Object.values(sections).flat().filter(t => t.checked).length`. */
  function CompletedTasks(sections: map<AgentId, seq<TaskItem>>): (n: nat)
    ensures n <= TotalTasks(sections)
  {
    CheckedAtMostLen(AgentIds, sections);
    SumChecked(AgentIds, sections)
  }

  /** `Object.keys(sections).length > 0`. */
  function HasTasks(sections: map<AgentId, seq<TaskItem>>): (r: bool)
    ensures r <==> exists a :: a in sections
  {
    |sections| > 0
  }

  lemma {:induction false} CheckedAtMostLen(ids: seq<AgentId>, sections: map<AgentId, seq<TaskItem>>)
    ensures SumChecked(ids, sections) <= SumLen(ids, sections)
    decreases |ids|
  {
    if ids != [] {
      CheckedAtMostLen(ids[1..], sections);
    }
  }

  /** Appending to section `s` adds one item, and one checked item if it is checked, per occurrence of `s` in `ids`. */
  lemma {:induction false} AddItemSums(ids: seq<AgentId>, sections: map<AgentId, seq<TaskItem>>, s: AgentId, item: TaskItem)
    ensures SumLen(ids, AddItem(sections, s, item)) == SumLen(ids, sections) + multiset(ids)[s]
    ensures SumChecked(ids, AddItem(sections, s, item)) ==
      SumChecked(ids, sections) + (if item.checked then multiset(ids)[s] else 0)
    decreases |ids|
  {
    if ids != [] {
      AddItemSums(ids[1..], sections, s, item);
      assert ids == [ids[0]] + ids[1..];
      assert multiset(ids) == multiset{ids[0]} + multiset(ids[1..]);
      if ids[0] == s {
        CountCheckedAppend(Section(sections, s), item);
      }
    }
  }

  /** `addFormItem` grows the total by exactly one, and the completed count by one exactly when the item is checked. */
  lemma AddItemTotals(sections: map<AgentId, seq<TaskItem>>, s: AgentId, item: TaskItem)
    ensures TotalTasks(AddItem(sections, s, item)) == TotalTasks(sections) + 1
    ensures CompletedTasks(AddItem(sections, s, item)) == CompletedTasks(sections) + (if item.checked then 1 else 0)
  {
    AddItemSums(AgentIds, sections, s, item);
    assert multiset(AgentIds)[s] == 1;
  }

  lemma {:induction false} SumLenCovers(ids: seq<AgentId>, sections: map<AgentId, seq<TaskItem>>, a: AgentId)
    requires a in ids
    ensures |Section(sections, a)| <= SumLen(ids, sections)
    decreases |ids|
  {
    if ids[0] != a {
      SumLenCovers(ids[1..], sections, a);
    }
  }

  lemma {:induction false} SumLenWitness(ids: seq<AgentId>, sections: map<AgentId, seq<TaskItem>>) returns (a: AgentId)
    requires SumLen(ids, sections) > 0
    ensures a in ids && Section(sections, a) != []
    decreases |ids|
  {
    if Section(sections, ids[0]) != [] {
      a := ids[0];
    } else {
      a := SumLenWitness(ids[1..], sections);
    }
  }

  /** Since sections only appear with their first item, some section exists exactly when there is some task. */
  lemma HasTasksIffTotal(sections: map<AgentId, seq<TaskItem>>)
    ensures SectionsNonEmpty(sections) ==> (HasTasks(sections) <==> TotalTasks(sections) > 0)
  {
    if HasTasks(sections) && SectionsNonEmpty(sections) {
      var a :| a in sections;
      AgentIdsComplete();
      SumLenCovers(AgentIds, sections, a);
    }
    if TotalTasks(sections) > 0 {
      var a := SumLenWitness(AgentIds, sections);
    }
  }

  /**
   * `Math.round((done / n) * 100)` for `n > 0`, and 0 otherwise, computed
   * exactly on integers: the nearest whole percentage, halves rounded up.
   */
  function ProgressPercent(done: nat, n: nat): (p: nat)
    ensures n == 0 ==> p == 0
    ensures n > 0 ==> 2 * n * p <= 200 * done + n < 2 * n * p + 2 * n
    ensures done <= n ==> p <= 100
  {
    if n > 0 then
      DivBounds(200 * done + n, 2 * n);
      if done <= n then PercentAtMost100(done, n); (200 * done + n) / (2 * n)
      else (200 * done + n) / (2 * n)
    else 0
  }

  lemma DivBounds(x: nat, m: nat)
    requires m > 0
    ensures m * (x / m) <= x < m * (x / m) + m
  {
  }

  lemma MulAtLeast(m: nat, q: nat, k: nat)
    requires q >= k
    ensures m * q >= m * k
  {
  }

  lemma PercentAtMost100(done: nat, n: nat)
    requires 0 < n && done <= n
    ensures (200 * done + n) / (2 * n) <= 100
  {
    var x, m := 200 * done + n, 2 * n;
    DivBounds(x, m);
    if x / m > 100 {
      MulAtLeast(m, x / m, 101);
    }
  }

  /** With five agents every share is a whole multiple of 20 percent, so no rounding happens. */
  lemma PercentOfFive(done: nat)
    requires done <= 5
    ensures ProgressPercent(done, 5) == 20 * done
  {
    var p := ProgressPercent(done, 5);
    assert 10 * p <= 200 * done + 5 < 10 * p + 10;
  }

  /** The figures of the status overview. */
  datatype Overview = Overview(
    completedAgents: nat, workingAgents: nat, idleAgents: nat,
    totalTasks: nat, completedTasks: nat, progressPercent: nat, hasTasks: bool)

  /** The status-overview counts computed on every render. */
  function StatusOverview(states: map<AgentId, AgentState>, sections: map<AgentId, seq<TaskItem>>): (o: Overview)
    requires AllAgentsPresent(states)
    ensures o.completedAgents + o.workingAgents + o.idleAgents == |AgentIds|
    ensures o.completedTasks <= o.totalTasks
    ensures o.progressPercent <= 100 && o.progressPercent == 20 * o.completedAgents
    ensures o.hasTasks <==> exists a :: a in sections
    ensures SectionsNonEmpty(sections) ==> (o.hasTasks <==> o.totalTasks > 0)
  {
    CountsPartition(AgentIds, states);
    CheckedAtMostLen(AgentIds, sections);
    HasTasksIffTotal(sections);
    var done := CountStatus(AgentIds, states, Done);
    PercentOfFive(done);
    Overview(done, CountStatus(AgentIds, states, Working), CountStatus(AgentIds, states, Idle),
             TotalTasks(sections), CompletedTasks(sections), ProgressPercent(done, |AgentIds|), HasTasks(sections))
  }

  // ---------------------------------------------------------------- planning

  /** The checklist item an agent contributes when planning: bespoke labels for lifestyle and access. */
  function PlanningTask(a: AgentId, t: Translator): (item: TaskItem)
    ensures item.kind == Checkbox && item.checked
    ensures a == Lifestyle ==> item.text == T(t, DemoLifestyleTask)
    ensures a == Access ==> item.text == T(t, DemoAccessTask)
    ensures a != Lifestyle && a != Access ==> item.text == T(t, DemoDefaultTask)
  {
    var task := TaskItem(Checkbox, T(t, DemoDefaultTask), true);
    var task := if a == Lifestyle then task.(text := T(t, DemoLifestyleTask)) else task;
    var task := if a == Access then task.(text := T(t, DemoAccessTask)) else task;
    task
  }

  /** The agent status table and the checklist, the part of the state the agent chains touch. */
  datatype Board = Board(states: map<AgentId, AgentState>, sections: map<AgentId, seq<TaskItem>>)

  /** One agent's chain once its delay is over: working, its item appended, done; no await in between. */
  function AgentChain(b: Board, a: AgentId, t: Translator): (r: Board)
    ensures r.states == b.states[a := AgentState(Done, T(t, DemoMemoryMatched))]
    ensures Section(r.sections, a) == Section(b.sections, a) + [PlanningTask(a, t)]
    ensures forall c :: c != a ==> Section(r.sections, c) == Section(b.sections, c)
  {
    var working := b.states[a := AgentState(Working, T(t, DemoReadingProfile))];
    Board(working[a := AgentState(Done, T(t, DemoMemoryMatched))], AddItem(b.sections, a, PlanningTask(a, t)))
  }

  /** The chains run one after another in the order their timers fire. */
  function RunChains(b: Board, order: seq<AgentId>, t: Translator): Board
    decreases |order|
  {
    if order == [] then b else RunChains(AgentChain(b, order[0], t), order[1..], t)
  }

  /** The board once the agents in `done` have run their chain, whatever the order. */
  function PlannedFor(b: Board, done: set<AgentId>, t: Translator): Board
  {
    Board(
      map a | a in b.states.Keys + done :: if a in done then AgentState(Done, T(t, DemoMemoryMatched)) else b.states[a],
      map a | a in b.sections.Keys + done :: if a in done then Section(b.sections, a) + [PlanningTask(a, t)] else b.sections[a])
  }

  /** A firing order of the agents' timers: each agent exactly once. */
  predicate IsFiringOrder(order: seq<AgentId>)
  {
    (forall a: AgentId :: a in order) && (forall i, j :: 0 <= i < j < |order| ==> order[i] != order[j])
  }

  /**
   * The schedule the page actually produces: the delays `index * 800 + jitter`
   * with a jitter below 500 never overlap, so the chains fire in `AGENT_IDS`
   * order, which is one of the firing orders covered below.
   */
  lemma AgentIdsIsFiringOrder()
    ensures IsFiringOrder(AgentIds)
  {
    AgentIdsComplete();
  }

  /** Two different agents' chains touch disjoint keys, so they commute. */
  lemma ChainsCommute(b: Board, a: AgentId, c: AgentId, t: Translator)
    requires a != c
    ensures AgentChain(AgentChain(b, a, t), c, t) == AgentChain(AgentChain(b, c, t), a, t)
  {
    StatesCommute(b.states, a, c, AgentState(Working, T(t, DemoReadingProfile)), AgentState(Done, T(t, DemoMemoryMatched)));
    SectionsCommute(b.sections, a, PlanningTask(a, t), c, PlanningTask(c, t));
  }

  /** Two different agents' status updates commute. */
  lemma StatesCommute(states: map<AgentId, AgentState>, a: AgentId, c: AgentId, w: AgentState, d: AgentState)
    requires a != c
    ensures states[a := w][a := d][c := w][c := d] == states[c := w][c := d][a := w][a := d]
  {
    assert states[a := w][a := d] == states[a := d];
    assert states[c := w][c := d] == states[c := d];
  }

  /** Appends to two different sections commute. */
  lemma SectionsCommute(sections: map<AgentId, seq<TaskItem>>, a: AgentId, ia: TaskItem, c: AgentId, ic: TaskItem)
    requires a != c
    ensures AddItem(AddItem(sections, a, ia), c, ic) == AddItem(AddItem(sections, c, ic), a, ia)
  {
    var l, r := AddItem(AddItem(sections, a, ia), c, ic), AddItem(AddItem(sections, c, ic), a, ia);
    forall k | k in l.Keys
      ensures l[k] == r[k]
    {
      assert l[k] == Section(l, k) && r[k] == Section(r, k);
    }
  }

  lemma PlannedForChainStates(b: Board, a: AgentId, done: set<AgentId>, t: Translator)
    requires a !in done
    ensures PlannedFor(AgentChain(b, a, t), done, t).states == PlannedFor(b, done + {a}, t).states
  {
    var c := AgentChain(b, a, t);
    var l := PlannedFor(c, done, t).states;
    var r := PlannedFor(b, done + {a}, t).states;
    assert l.Keys == r.Keys;
    forall k | k in l ensures l[k] == r[k] {
      if k !in done && k != a {
        assert l[k] == c.states[k];
      }
    }
  }

  lemma PlannedForChainSections(b: Board, a: AgentId, done: set<AgentId>, t: Translator)
    requires a !in done
    ensures PlannedFor(AgentChain(b, a, t), done, t).sections == PlannedFor(b, done + {a}, t).sections
  {
    var c := AgentChain(b, a, t);
    var l := PlannedFor(c, done, t).sections;
    var r := PlannedFor(b, done + {a}, t).sections;
    assert l.Keys == r.Keys;
    forall k | k in l ensures l[k] == r[k] {
      if k in done {
        assert Section(c.sections, k) == Section(b.sections, k);
      } else if k != a {
        assert l[k] == c.sections[k];
      }
    }
  }

  lemma PlannedForChain(b: Board, a: AgentId, done: set<AgentId>, t: Translator)
    requires a !in done
    ensures PlannedFor(AgentChain(b, a, t), done, t) == PlannedFor(b, done + {a}, t)
  {
    PlannedForChainStates(b, a, done, t);
    PlannedForChainSections(b, a, done, t);
  }

  lemma PlannedForNone(b: Board, t: Translator)
    ensures PlannedFor(b, {}, t) == b
  {
    var p := PlannedFor(b, {}, t);
    assert p.states == b.states;
    assert p.sections == b.sections;
  }

  lemma {:induction false} RunChainsDistinct(b: Board, order: seq<AgentId>, t: Translator)
    requires forall i, j :: 0 <= i < j < |order| ==> order[i] != order[j]
    ensures RunChains(b, order, t) == PlannedFor(b, (set a | a in order), t)
    decreases |order|
  {
    if order == [] {
      PlannedForNone(b, t);
      assert (set a | a in order) == {};
    } else {
      var rest := order[1..];
      var first := order[0];
      var done := set a | a in rest;
      assert first !in rest by {
        forall k | 0 <= k < |rest| ensures rest[k] != first {
          assert rest[k] == order[k + 1];
        }
      }
      assert done + {first} == set a | a in order by {
        assert order == [first] + rest;
      }
      RunChainsDistinct(AgentChain(b, first, t), rest, t);
      PlannedForChain(b, first, done, t);
    }
  }

  /** In the closed form, each agent of `done` is done and has its planning item appended. */
  lemma PlannedForDone(b: Board, done: set<AgentId>, t: Translator, a: AgentId)
    requires a in done
    ensures var p := PlannedFor(b, done, t);
      a in p.states && p.states[a] == AgentState(Done, T(t, DemoMemoryMatched)) &&
      Section(p.sections, a) == Section(b.sections, a) + [PlanningTask(a, t)]
  {
  }

  /**
   * Whatever order the five timers fire in, planning ends in the same state:
   * every agent done, and exactly one more checked checkbox item at the end
   * of each agent's section, the earlier items unchanged.
   */
  lemma PlanningAnyOrder(b: Board, order: seq<AgentId>, t: Translator)
    requires IsFiringOrder(order)
    ensures RunChains(b, order, t) == PlannedFor(b, (set a | a in AgentIds), t)
    ensures var r := RunChains(b, order, t);
      forall a: AgentId :: a in r.states && r.states[a] == AgentState(Done, T(t, DemoMemoryMatched))
    ensures var r := RunChains(b, order, t);
      forall a: AgentId :: Section(r.sections, a) == Section(b.sections, a) + [TaskItem(Checkbox, PlanningTask(a, t).text, true)]
  {
    var all := set a | a in AgentIds;
    AgentIdsComplete();
    assert (set a | a in order) == all;
    RunChainsDistinct(b, order, t);
    forall a: AgentId
      ensures var r := RunChains(b, order, t);
        a in r.states && r.states[a] == AgentState(Done, T(t, DemoMemoryMatched)) &&
        Section(r.sections, a) == Section(b.sections, a) + [TaskItem(Checkbox, PlanningTask(a, t).text, true)]
    {
      PlannedForDone(b, all, t, a);
    }
  }
}

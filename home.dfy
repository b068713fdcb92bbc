/**
 * The concierge console's session state (src/pages/Home.jsx) as one object:
 * the accepted and pending memories, the agent status table, the trip form
 * with its per-agent checklists, the transcript and the view flags. Each
 * `setX(prev => ...)` of the page is a method that changes exactly the
 * fields its frame names; the two scripted scenarios are methods that run
 * their atomic steps (the code between two awaits) in sequence.
 */
module Home {
  import opened Wrappers
  import opened HomeState
  import JsString

  class Session {
    /** The translation context the page renders under. */
    var i18n: I18nContext

    var memories: seq<Memory>
    var pending: seq<Memory>
    var agentStates: map<AgentId, AgentState>
    var formData: FormData
    var messages: seq<Message>
    var isProcessing: bool
    var isListening: bool
    var showStatusPanel: bool
    var showAlert: bool

    /** Every agent has a status entry, and a checklist section exists only with an item in it. */
    ghost predicate Valid()
      reads this
    {
      AllAgentsPresent(agentStates) && SectionsNonEmpty(formData.sections)
    }

    /** The part of the state the agent chains work on. */
    ghost function Snapshot(): Board
      reads this
    {
      Board(agentStates, formData.sections)
    }

    /** The status-overview figures of the current state; the page computes them on every render. */
    ghost function CurrentOverview(): (o: Overview)
      requires Valid()
      reads this
      ensures o.completedAgents + o.workingAgents + o.idleAgents == |AgentIds|
      ensures o.completedTasks <= o.totalTasks && o.progressPercent <= 100
      ensures o.hasTasks <==> o.totalTasks > 0
    {
      StatusOverview(agentStates, formData.sections)
    }

    /** The state the page starts in and returns to whenever the locale changes. */
    ghost predicate IsFresh(ctx: I18nContext, seeds: seq<Memory>)
      reads this
    {
      && i18n == ctx
      && memories == InitialMemories(seeds)
      && pending == []
      && agentStates == IdleAgents(T(ctx.t, AgentsIdle))
      && formData == FormData(T(ctx.t, DemoDestination), T(ctx.t, DemoDuration), map[])
      && messages == [Message(Ai, T(ctx.t, DemoInitialMessage), None)]
      && !isProcessing && !isListening && !showStatusPanel && !showAlert
    }

    /** The initial `useState` values; `seeds` is the list `t('memories.initial')` yields. */
    constructor (ctx: I18nContext, seeds: seq<Memory>)
      ensures Valid() && IsFresh(ctx, seeds)
    {
      i18n := ctx;
      memories := InitialMemories(seeds);
      pending := [];
      agentStates := IdleAgents(T(ctx.t, AgentsIdle));
      formData := FormData(T(ctx.t, DemoDestination), T(ctx.t, DemoDuration), map[]);
      messages := [Message(Ai, T(ctx.t, DemoInitialMessage), None)];
      isProcessing := false;
      isListening := false;
      showStatusPanel := false;
      showAlert := false;
    }

    /** The effect that runs on every locale change: everything back to the initial state of the new locale. */
    method ResetForLocale(ctx: I18nContext, seeds: seq<Memory>)
      modifies this
      ensures Valid()
      ensures IsFresh(ctx, seeds)
    {
      i18n := ctx;
      memories, pending := InitialMemories(seeds), [];
      agentStates := IdleAgents(T(ctx.t, AgentsIdle));
      formData := FormData(T(ctx.t, DemoDestination), T(ctx.t, DemoDuration), map[]);
      messages := [Message(Ai, T(ctx.t, DemoInitialMessage), None)];
      isProcessing, isListening, showStatusPanel, showAlert := false, false, false, false;
    }

    // ------------------------------------------------------- state updaters

    /** `addMessage`: append one timestamped entry to the transcript. */
    method AddMessage(role: Role, text: string, now: int)
      modifies this`messages
      ensures messages == old(messages) + [Message(role, text, Some(now))]
    {
      messages := messages + [Message(role, text, Some(now))];
    }

    /** `updateAgentStatus`: overwrite one agent's entry, leaving the others as they were. */
    method UpdateAgentStatus(id: AgentId, status: Status, log: string)
      requires Valid()
      modifies this`agentStates
      ensures Valid()
      ensures agentStates == old(agentStates)[id := AgentState(status, log)]
      ensures forall a :: a != id ==> agentStates[a] == old(agentStates)[a]
    {
      agentStates := agentStates[id := AgentState(status, log)];
    }

    /** `addFormItem`: append to one agent's section, creating it if absent. */
    method AddFormItem(s: AgentId, item: TaskItem)
      requires Valid()
      modifies this`formData
      ensures Valid()
      ensures formData == old(formData).(sections := AddItem(old(formData.sections), s, item))
      ensures TotalTasks(formData.sections) == TotalTasks(old(formData.sections)) + 1
    {
      AddItemTotals(formData.sections, s, item);
      formData := formData.(sections := AddItem(formData.sections, s, item));
    }

    /**
     * `acceptMemory`, as written: the memory goes to the head of the accepted
     * list whether or not it is pending, every pending entry with its id is
     * dropped, and one system message is posted.
     */
    method AcceptMemory(m: Memory, now: int)
      modifies this`memories, this`pending, this`messages
      ensures memories == [m] + old(memories)
      ensures pending == RemoveId(old(pending), m.id)
      ensures forall p :: p in pending <==> p in old(pending) && p.id != m.id
      ensures messages == old(messages) + [Message(System, JsString.ReplaceFirst(T(i18n.t, DemoMemoryTuning), ContentPlaceholder, m.content), Some(now))]
    {
      memories := [m] + memories;
      pending := RemoveId(pending, m.id);
      AddMessage(System, JsString.ReplaceFirst(T(i18n.t, DemoMemoryTuning), ContentPlaceholder, m.content), now);
    }

    /** `rejectMemory`: every pending entry with the id is dropped; nothing else changes. */
    method RejectMemory(id: int)
      modifies this`pending
      ensures pending == RemoveId(old(pending), id)
      ensures forall m :: m in pending <==> m in old(pending) && m.id != id
    {
      pending := RemoveId(pending, id);
    }

    // ------------------------------------------------------ trip planning

    /** The first step of `startPlanning`: processing on, the user's confirmation posted. */
    method BeginPlanning(now: int)
      modifies this`isProcessing, this`messages
      ensures isProcessing
      ensures messages == old(messages) + [Message(User, JsString.ReplaceFirst(T(i18n.t, DemoConfirmTrip), DestinationPlaceholder, formData.destination), Some(now))]
    {
      isProcessing := true;
      AddMessage(User, JsString.ReplaceFirst(T(i18n.t, DemoConfirmTrip), DestinationPlaceholder, formData.destination), now);
    }

    /** After the first delay: the assistant says it is reading the memory. */
    method AnnounceMemoryRead(now: int)
      modifies this`messages
      ensures messages == old(messages) + [Message(Ai, T(i18n.t, DemoReadingMemory), Some(now))]
    {
      AddMessage(Ai, T(i18n.t, DemoReadingMemory), now);
    }

    /** One agent's chain once its timer fires. */
    method RunAgentChain(a: AgentId)
      requires Valid()
      modifies this`agentStates, this`formData
      ensures Valid()
      ensures Snapshot() == AgentChain(old(Snapshot()), a, i18n.t)
      ensures formData == old(formData).(sections := formData.sections)
    {
      UpdateAgentStatus(a, Working, T(i18n.t, DemoReadingProfile));
      AddFormItem(a, PlanningTask(a, i18n.t));
      UpdateAgentStatus(a, Done, T(i18n.t, DemoMemoryMatched));
    }

    /** The five chains, run in the order their timers fire. */
    method RunAgentChains(order: seq<AgentId>)
      requires Valid()
      modifies this`agentStates, this`formData
      ensures Valid()
      ensures Snapshot() == RunChains(old(Snapshot()), order, i18n.t)
      ensures formData == old(formData).(sections := formData.sections)
    {
      ghost var start := Snapshot();
      for i := 0 to |order|
        invariant Valid()
        invariant RunChains(Snapshot(), order[i..], i18n.t) == RunChains(start, order, i18n.t)
        invariant formData == old(formData).(sections := formData.sections)
      {
        assert order[i..][1..] == order[i + 1..];
        RunAgentChain(order[i]);
      }
    }

    /**
     * `startPlanning`, with the agents' timers firing in `order`: two
     * messages posted, every agent done, one checked item more per agent,
     * processing off at the end.
     */
    method StartPlanning(order: seq<AgentId>, confirmedAt: int, readAt: int)
      requires Valid()
      requires IsFiringOrder(order)
      modifies this`isProcessing, this`messages, this`agentStates, this`formData
      ensures Valid()
      ensures !isProcessing
      ensures messages == old(messages)
        + [Message(User, JsString.ReplaceFirst(T(i18n.t, DemoConfirmTrip), DestinationPlaceholder, formData.destination), Some(confirmedAt))]
        + [Message(Ai, T(i18n.t, DemoReadingMemory), Some(readAt))]
      ensures Snapshot() == RunChains(old(Snapshot()), order, i18n.t)
      ensures formData == old(formData).(sections := formData.sections)
      ensures forall a: AgentId :: agentStates[a] == AgentState(Done, T(i18n.t, DemoMemoryMatched))
      ensures forall a: AgentId :: Section(formData.sections, a) == Section(old(formData.sections), a) + [PlanningTask(a, i18n.t)]
    {
      BeginPlanning(confirmedAt);
      AnnounceMemoryRead(readAt);
      ghost var start := Snapshot();
      RunAgentChains(order);
      PlanningAnyOrder(start, order, i18n.t);
      isProcessing := false;
    }

    // ---------------------------------------------------------- voice demo

    /** The guard and first write of `handleVoiceDemo`: nothing happens while already listening. */
    method VoiceBegin() returns (started: bool)
      modifies this`isListening
      ensures started == !old(isListening)
      ensures isListening
    {
      if isListening {
        return false;
      }
      isListening := true;
      started := true;
    }

    /** Listening over: the transcript gets the spoken text and the lifestyle agent starts working. */
    method VoiceHeard(now: int)
      requires Valid()
      modifies this`isListening, this`messages, this`isProcessing, this`agentStates
      ensures Valid()
      ensures !isListening && isProcessing
      ensures messages == old(messages) + [Message(User, T(i18n.t, DemoVoiceText), Some(now))]
      ensures agentStates == old(agentStates)[Lifestyle := AgentState(Working, T(i18n.t, DemoAnalyzingDiet))]
    {
      isListening := false;
      AddMessage(User, T(i18n.t, DemoVoiceText), now);
      isProcessing := true;
      UpdateAgentStatus(Lifestyle, Working, T(i18n.t, DemoAnalyzingDiet));
    }

    /** After the analysis delay: the diet alert item, lifestyle done, a new pending memory, the answer. */
    method VoiceUpdated(memoryId: int, now: int)
      requires Valid()
      modifies this`formData, this`agentStates, this`pending, this`isProcessing, this`messages
      ensures Valid()
      ensures formData == old(formData).(sections := AddItem(old(formData.sections), Lifestyle, TaskItem(Alert, T(i18n.t, DemoDietAdjust), true)))
      ensures agentStates == old(agentStates)[Lifestyle := AgentState(Done, T(i18n.t, DemoUpdateDone))]
      ensures pending == [VoiceMemory(memoryId, i18n.t, i18n.locale)] + old(pending)
      ensures !isProcessing
      ensures messages == old(messages) + [Message(Ai, T(i18n.t, DemoVoiceResult), Some(now))]
    {
      AddFormItem(Lifestyle, TaskItem(Alert, T(i18n.t, DemoDietAdjust), true));
      UpdateAgentStatus(Lifestyle, Done, T(i18n.t, DemoUpdateDone));
      ProposeVoiceMemory(memoryId, now);
    }

    /** The end of the analysis step: the proposed memory queued, processing off, the answer posted. */
    method ProposeVoiceMemory(memoryId: int, now: int)
      modifies this`pending, this`isProcessing, this`messages
      ensures pending == [VoiceMemory(memoryId, i18n.t, i18n.locale)] + old(pending)
      ensures !isProcessing
      ensures messages == old(messages) + [Message(Ai, T(i18n.t, DemoVoiceResult), Some(now))]
    {
      pending := [VoiceMemory(memoryId, i18n.t, i18n.locale)] + pending;
      isProcessing := false;
      AddMessage(Ai, T(i18n.t, DemoVoiceResult), now);
    }

    /**
     * `handleVoiceDemo` up to its answer: with `isListening` set it changes
     * nothing; otherwise one alert item for lifestyle, lifestyle done, one new
     * pending lifestyle memory at the head, the user's and the assistant's
     * messages appended in that order.
     */
    method HandleVoiceDemo(memoryId: int, heardAt: int, answeredAt: int) returns (started: bool)
      requires Valid()
      modifies this`isListening, this`formData, this`agentStates, this`pending, this`isProcessing, this`messages
      ensures Valid()
      ensures started == !old(isListening)
      ensures !started ==>
        isListening && formData == old(formData) && agentStates == old(agentStates) &&
        pending == old(pending) && isProcessing == old(isProcessing) && messages == old(messages)
      ensures started ==>
        && !isListening && !isProcessing
        && formData == old(formData).(sections := AddItem(old(formData.sections), Lifestyle, TaskItem(Alert, T(i18n.t, DemoDietAdjust), true)))
        && agentStates == old(agentStates)[Lifestyle := AgentState(Done, T(i18n.t, DemoUpdateDone))]
        && pending == [VoiceMemory(memoryId, i18n.t, i18n.locale)] + old(pending)
        && messages == old(messages) + [Message(User, T(i18n.t, DemoVoiceText), Some(heardAt)), Message(Ai, T(i18n.t, DemoVoiceResult), Some(answeredAt))]
    {
      started := VoiceBegin();
      if !started {
        return;
      }
      VoiceHeard(heardAt);
      VoiceUpdated(memoryId, answeredAt);
    }

    /** The second timer of the voice demo: the status summary message. */
    method PostStatusSummary(now: int)
      modifies this`messages
      ensures messages == old(messages) + [Message(Ai, T(i18n.t, DemoStatusSummaryMsg), Some(now))]
    {
      AddMessage(Ai, T(i18n.t, DemoStatusSummaryMsg), now);
    }

    /** Half a second later the status overview opens. */
    method OpenStatusPanel()
      modifies this`showStatusPanel
      ensures showStatusPanel
    {
      showStatusPanel := true;
    }

    /** `triggerProactiveAlert` up to its delay: banner shown, system message, access rebooking. */
    method TriggerProactiveAlert(now: int)
      requires Valid()
      modifies this`showAlert, this`messages, this`agentStates
      ensures Valid()
      ensures showAlert
      ensures messages == old(messages) + [Message(System, T(i18n.t, AlertTitle) + AlertSeparator + T(i18n.t, AlertFlightChange), Some(now))]
      ensures agentStates == old(agentStates)[Access := AgentState(Working, T(i18n.t, AlertRebooking))]
    {
      showAlert := true;
      AddMessage(System, T(i18n.t, AlertTitle) + AlertSeparator + T(i18n.t, AlertFlightChange), now);
      UpdateAgentStatus(Access, Working, T(i18n.t, AlertRebooking));
    }

    /** The end of `triggerProactiveAlert`: the new-flight alert item and access done. */
    method ResolveProactiveAlert()
      requires Valid()
      modifies this`formData, this`agentStates
      ensures Valid()
      ensures formData == old(formData).(sections := AddItem(old(formData.sections), Access, TaskItem(Alert, T(i18n.t, AlertNewFlight), true)))
      ensures agentStates == old(agentStates)[Access := AgentState(Done, T(i18n.t, AlertSolved))]
    {
      AddFormItem(Access, TaskItem(Alert, T(i18n.t, AlertNewFlight), true));
      UpdateAgentStatus(Access, Done, T(i18n.t, AlertSolved));
    }

    /**
     * The timers that follow the voice demo's answer: the status summary is
     * posted, the overview opens and closes again, and the proactive alert
     * runs to its end (access rebooked and done, the new-flight item added).
     */
    method AlertTimeline(summaryAt: int, alertAt: int)
      requires Valid()
      modifies this`formData, this`agentStates, this`messages, this`showStatusPanel, this`showAlert
      ensures Valid()
      ensures formData == old(formData).(sections := AddItem(old(formData.sections), Access, TaskItem(Alert, T(i18n.t, AlertNewFlight), true)))
      ensures agentStates == old(agentStates)[Access := AgentState(Done, T(i18n.t, AlertSolved))]
      ensures messages == old(messages)
        + [Message(Ai, T(i18n.t, DemoStatusSummaryMsg), Some(summaryAt))]
        + [Message(System, T(i18n.t, AlertTitle) + AlertSeparator + T(i18n.t, AlertFlightChange), Some(alertAt))]
      ensures showAlert && !showStatusPanel
    {
      PostStatusSummary(summaryAt);
      OpenStatusPanel();
      showStatusPanel := false;
      TriggerProactiveAlert(alertAt);
      ResolveProactiveAlert();
    }

    /**
     * The whole voice scenario with its timers run to the end and nothing
     * interleaved: lifestyle and access each get one alert item and end done,
     * one lifestyle memory waits at the head of the pending list, and the
     * transcript grows by the spoken text, the answer, the summary and the
     * alert, in that order.
     */
    method VoiceScenario(memoryId: int, heardAt: int, answeredAt: int, summaryAt: int, alertAt: int)
      requires Valid()
      modifies this`isListening, this`formData, this`agentStates, this`pending, this`isProcessing, this`messages,
        this`showStatusPanel, this`showAlert
      ensures Valid()
      ensures old(isListening) ==>
        formData == old(formData) && agentStates == old(agentStates) && pending == old(pending) &&
        messages == old(messages) && showStatusPanel == old(showStatusPanel) && showAlert == old(showAlert)
      ensures !old(isListening) ==>
        && formData == old(formData).(sections := AddItem(AddItem(old(formData.sections), Lifestyle, TaskItem(Alert, T(i18n.t, DemoDietAdjust), true)),
                               Access, TaskItem(Alert, T(i18n.t, AlertNewFlight), true)))
        && agentStates == old(agentStates)[Lifestyle := AgentState(Done, T(i18n.t, DemoUpdateDone))][Access := AgentState(Done, T(i18n.t, AlertSolved))]
        && pending == [VoiceMemory(memoryId, i18n.t, i18n.locale)] + old(pending)
        && messages == old(messages)
             + [Message(User, T(i18n.t, DemoVoiceText), Some(heardAt)), Message(Ai, T(i18n.t, DemoVoiceResult), Some(answeredAt))]
             + [Message(Ai, T(i18n.t, DemoStatusSummaryMsg), Some(summaryAt))]
             + [Message(System, T(i18n.t, AlertTitle) + AlertSeparator + T(i18n.t, AlertFlightChange), Some(alertAt))]
        && showAlert && !showStatusPanel && !isListening && !isProcessing
    {
      var started := HandleVoiceDemo(memoryId, heardAt, answeredAt);
      if !started {
        return;
      }
      AlertTimeline(summaryAt, alertAt);
    }
  }
}

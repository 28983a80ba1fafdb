/**
 * The shared session of CollaborativeAgent.js: two users chat, one submits a
 * task to the agent as a proposal, both vote on it, and realtime events about
 * messages and proposals update what each client shows.
 *
 * The API calls are parameters (whether each one succeeded, and its error
 * message); `Date.now()` is the parameter `now`. The realtime channel is the
 * sequence of events handed to `ReceiveMessageEvent` and `ReceiveProposalEvent`.
 */
module CollaborativeAgent {
  import opened Wrappers
  import opened Text
  import opened Seqs

  /** An error's `message`, or the handler's fallback when it is empty or missing. */
  function OrDefault(message: Option<string>, fallback: string): string
  {
    if message.Some? && message.value != "" then message.value else fallback
  }

  /** What an awaited API call did: resolved, or rejected with its error's
      message (None when that is missing). */
  datatype ApiResult = ApiOk | ApiFailed(message: Option<string>)

  // ---------------------------------------------------------------------------
  // Team chat: handleMessageUpdate
  // ---------------------------------------------------------------------------

  datatype ChatMessage = ChatMessage(id: string, senderId: string, content: string)

  datatype MessageEvent =
    | MessageInsert(inserted: ChatMessage)
    | MessageUpdate(updated: ChatMessage)
    | MessageDelete(deletedId: string)
    | OtherMessageEvent

  /** `current.map(m => m.id === updated.id ? updated : m)`. */
  function ReplaceMessage(current: seq<ChatMessage>, updated: ChatMessage): (r: seq<ChatMessage>)
    ensures |r| == |current|
    ensures forall i :: 0 <= i < |current| ==> r[i] == if current[i].id == updated.id then updated else current[i]
  {
    MapSeq(current, (m: ChatMessage) => if m.id == updated.id then updated else m)
  }

  /** `current.filter(m => m.id !== id)`. */
  function RemoveMessage(current: seq<ChatMessage>, id: string): (r: seq<ChatMessage>)
    ensures |r| <= |current|
    ensures forall m :: m in r <==> m in current && m.id != id
  {
    Keep(current, (m: ChatMessage) => m.id != id)
  }

  /** `handleMessageUpdate`: a row inserted by someone else is appended (the
      user's own rows are already shown), an updated row replaces the entries
      with its id, a deleted one removes them, and other events change nothing. */
  function OnMessageEvent(current: seq<ChatMessage>, e: MessageEvent, currentUserId: Option<string>): (r: seq<ChatMessage>)
    ensures |r| <= |current| + 1
    ensures forall m :: m in r ==> m in current || (e.MessageInsert? && m == e.inserted) || (e.MessageUpdate? && m == e.updated)
  {
    match e
    case MessageInsert(m) =>
      if currentUserId.None? || m.senderId != currentUserId.value then current + [m] else current
    case MessageUpdate(m) => ReplaceMessage(current, m)
    case MessageDelete(id) => RemoveMessage(current, id)
    case OtherMessageEvent => current
  }

  /** The list after each kind of event, in terms of the list before. */
  lemma MessageEventEffects(current: seq<ChatMessage>, e: MessageEvent, me: string)
    ensures e.MessageInsert? && e.inserted.senderId == me ==> OnMessageEvent(current, e, Some(me)) == current
    ensures e.MessageInsert? && e.inserted.senderId != me ==>
              OnMessageEvent(current, e, Some(me)) == current + [e.inserted]
    ensures e.MessageUpdate? ==> |OnMessageEvent(current, e, Some(me))| == |current|
    ensures e.MessageDelete? ==>
              forall m :: m in OnMessageEvent(current, e, Some(me)) <==> m in current && m.id != e.deletedId
    ensures e.OtherMessageEvent? ==> OnMessageEvent(current, e, Some(me)) == current
  {
  }

  /** Deleting or updating an id that is not in the list changes nothing. */
  lemma AbsentIdEvents(current: seq<ChatMessage>, m: ChatMessage, uid: Option<string>)
    requires forall i :: 0 <= i < |current| ==> current[i].id != m.id
    ensures OnMessageEvent(current, MessageDelete(m.id), uid) == current
    ensures OnMessageEvent(current, MessageUpdate(m), uid) == current
  {
    KeepAll(current, (c: ChatMessage) => c.id != m.id);
  }

  // ---------------------------------------------------------------------------
  // Agent chat and proposals: handleProposalUpdate
  // ---------------------------------------------------------------------------

  datatype MessageKind = UserKind | SystemKind | AgentKind

  /** An entry of the agent chat; only the user's own prompts carry a sender name. */
  datatype AgentMessage = AgentMessage(id: string, kind: MessageKind, content: string, senderName: Option<string>)

  datatype Proposal = Proposal(id: string, title: string, status: string, approvals: map<string, string>,
                               isMock: bool, mockResponse: string, agentAnalysis: Option<string>)

  datatype ProposalEvent =
    | ProposalInsert(inserted: Proposal)
    | ProposalUpdate(oldStatus: string, updated: Proposal)
    | OtherProposalEvent

  /** What the agent panel shows, and the submit lock and cooldown. */
  datatype AgentView = AgentView(proposal: Option<Proposal>, agentMessages: seq<AgentMessage>,
                                 isSubmitting: bool, cooldown: int)

  const NO_RESPONSE := "Agent finished but provided no response."
  const COOLDOWN_SECONDS := 5

  predicate IsSystem(m: AgentMessage) { m.kind == SystemKind }

  predicate IsProcessing(m: AgentMessage) { IsPrefix("processing-", m.id) }

  function WithoutSystem(ms: seq<AgentMessage>): (r: seq<AgentMessage>)
    ensures forall m :: m in r <==> m in ms && !IsSystem(m)
  {
    Keep(ms, (m: AgentMessage) => !IsSystem(m))
  }

  function WithoutProcessing(ms: seq<AgentMessage>): (r: seq<AgentMessage>)
    ensures forall m :: m in r <==> m in ms && !IsProcessing(m)
  {
    Keep(ms, (m: AgentMessage) => !IsProcessing(m))
  }

  function ProcessingMessage(p: Proposal): AgentMessage
  {
    AgentMessage("processing-" + p.id, SystemKind, "Processing task: \"" + p.title + "\"...", None)
  }

  function AnalysisMessage(p: Proposal): AgentMessage
  {
    AgentMessage("analysis-" + p.id, AgentKind, OrDefault(p.agentAnalysis, NO_RESPONSE), None)
  }

  function InterruptedMessage(p: Proposal): AgentMessage
  {
    AgentMessage("interrupted-" + p.id, SystemKind, "Processing stopped by user.", None)
  }

  function RejectionResponse(p: Proposal): AgentMessage
  {
    AgentMessage("rejection-response-" + p.id, AgentKind, if p.agentAnalysis.Some? then p.agentAnalysis.value else "", None)
  }

  /** The update moves the proposal into `status`. */
  predicate Entered(oldStatus: string, p: Proposal, status: string)
  {
    p.status == status && oldStatus != status
  }

  /** `handleProposalUpdate`: a new proposal becomes current and unlocks the
      submit button for the cooldown; an update of the current proposal replaces
      it and posts what its new status calls for; updates of other proposals
      are ignored. */
  function OnProposalEvent(v: AgentView, e: ProposalEvent): (r: AgentView)
    ensures e.OtherProposalEvent? ==> r == v
    ensures r.isSubmitting ==> v.isSubmitting
    ensures r.cooldown == v.cooldown || (e.ProposalInsert? && r.cooldown == COOLDOWN_SECONDS)
  {
    match e
    case ProposalInsert(p) => AgentView(Some(p), v.agentMessages, false, COOLDOWN_SECONDS)
    case ProposalUpdate(oldStatus, p) =>
      if !(v.proposal.Some? && p.id == v.proposal.value.id) then v
      else if Entered(oldStatus, p, "approved") && p.isMock then
        AgentView(Some(p), WithoutSystem(v.agentMessages) + [ProcessingMessage(p)], v.isSubmitting, v.cooldown)
      else
        var ms1 := if Entered(oldStatus, p, "approved") then WithoutSystem(v.agentMessages) + [ProcessingMessage(p)]
                   else v.agentMessages;
        var ms2 := if Entered(oldStatus, p, "processed") then WithoutProcessing(ms1) + [AnalysisMessage(p)] else ms1;
        var ms3 := if Entered(oldStatus, p, "interrupted") then WithoutProcessing(ms2) + [InterruptedMessage(p)]
                   else ms2;
        var ms4 := if Entered(oldStatus, p, "rejected_processed") then ms3 + [RejectionResponse(p)] else ms3;
        AgentView(Some(p), ms4, v.isSubmitting, v.cooldown)
    case OtherProposalEvent => v
  }

  /** The timer of a mock proposal: its canned response replaces the processing
      message. */
  function OnMockResponse(ms: seq<AgentMessage>, p: Proposal): (r: seq<AgentMessage>)
    ensures |r| >= 1 && r[|r| - 1].id == "analysis-" + p.id && r[|r| - 1].content == p.mockResponse
    ensures forall m :: m in r[..|r| - 1] <==> m in ms && !IsProcessing(m)
  {
    WithoutProcessing(ms) + [AgentMessage("analysis-" + p.id, AgentKind, p.mockResponse, None)]
  }

  /** A new proposal unlocks the submit button and starts the cooldown; events
      about another proposal change nothing. */
  lemma ProposalEventBasics(v: AgentView, e: ProposalEvent)
    ensures e.ProposalInsert? ==>
              var r := OnProposalEvent(v, e);
              r.proposal == Some(e.inserted) && !r.isSubmitting && r.cooldown == COOLDOWN_SECONDS &&
              r.agentMessages == v.agentMessages
    ensures e.ProposalUpdate? && (v.proposal.None? || e.updated.id != v.proposal.value.id) ==> OnProposalEvent(v, e) == v
  {
  }

  /** Filtering out the system messages and appending one leaves that one as the
      only system message. */
  lemma OnlySystemMessage(ms: seq<AgentMessage>, m: AgentMessage)
    requires IsSystem(m)
    ensures Keep(WithoutSystem(ms) + [m], IsSystem) == [m]
  {
    var w := WithoutSystem(ms);
    KeepAppend(w, [m], IsSystem);
    forall i | 0 <= i < |w|
      ensures !IsSystem(w[i])
    {
      assert w[i] in w;
    }
    KeepNone(w, IsSystem);
    assert [m][1..] == [];
  }

  /** When the current proposal is approved (and is not a mock), the earlier
      system messages, such as a rejection notice, give way to exactly one
      processing message, appended at the end. */
  lemma ApprovalShowsProcessing(v: AgentView, oldStatus: string, p: Proposal)
    requires v.proposal.Some? && p.id == v.proposal.value.id
    requires Entered(oldStatus, p, "approved") && !p.isMock
    ensures var ms := OnProposalEvent(v, ProposalUpdate(oldStatus, p)).agentMessages;
            ms == WithoutSystem(v.agentMessages) + [ProcessingMessage(p)] &&
            Keep(ms, IsSystem) == [ProcessingMessage(p)]
  {
    assert !Entered(oldStatus, p, "processed") && !Entered(oldStatus, p, "interrupted") &&
           !Entered(oldStatus, p, "rejected_processed");
    OnlySystemMessage(v.agentMessages, ProcessingMessage(p));
  }

  /** A result message's id does not start with "processing-". */
  lemma NotProcessing(prefix: string, id: string)
    requires |prefix| > 0 && prefix[0] != 'p'
    ensures !IsPrefix("processing-", prefix + id)
  {
    assert (prefix + id)[0] == prefix[0];
  }

  /** When processing ends (the agent's analysis arrives or the user stopped
      it), no processing message remains and the result is the last entry; the
      analysis falls back to a fixed text when the agent sent none. */
  lemma FinishReplacesProcessing(v: AgentView, oldStatus: string, p: Proposal)
    requires v.proposal.Some? && p.id == v.proposal.value.id
    requires Entered(oldStatus, p, "processed") || Entered(oldStatus, p, "interrupted")
    ensures var ms := OnProposalEvent(v, ProposalUpdate(oldStatus, p)).agentMessages;
            && ms == WithoutProcessing(v.agentMessages) +
                     [if p.status == "processed" then AnalysisMessage(p) else InterruptedMessage(p)]
            && forall i :: 0 <= i < |ms| ==> !IsProcessing(ms[i])
    ensures p.status == "processed" && (p.agentAnalysis.None? || p.agentAnalysis == Some("")) ==>
              AnalysisMessage(p).content == NO_RESPONSE
  {
    var w := WithoutProcessing(v.agentMessages);
    var last := if p.status == "processed" then AnalysisMessage(p) else InterruptedMessage(p);
    if p.status == "processed" {
      NotProcessing("analysis-", p.id);
    } else {
      NotProcessing("interrupted-", p.id);
    }
    var ms := w + [last];
    forall i | 0 <= i < |ms|
      ensures !IsProcessing(ms[i])
    {
      if i < |w| {
        assert w[i] in w;
      }
    }
  }

  // ---------------------------------------------------------------------------
  // Votes: handleApproval
  // ---------------------------------------------------------------------------

  /** `{...proposal.approvals, [userId]: decision}`. */
  function WithDecision(approvals: map<string, string>, userId: string, decision: string): (r: map<string, string>)
    ensures r.Keys == approvals.Keys + {userId}
    ensures r[userId] == decision
    ensures forall u :: u in approvals && u != userId ==> r[u] == approvals[u]
  {
    approvals[userId := decision]
  }

  /** `Object.values(approvals).filter(d => d === decision).length`. */
  function CountDecisions(approvals: map<string, string>, decision: string): (n: nat)
    ensures n <= |approvals|
  {
    var voters := set u | u in approvals && approvals[u] == decision;
    assert |approvals.Keys| == |approvals|;
    assert |approvals.Keys| == |voters| + |approvals.Keys - voters|;
    |voters|
  }

  datatype Tally = AllApproved | AllRejected | PartlyRejected | Undecided

  const APPROVED := "approved"
  const REJECTED := "rejected"

  /** The cases of `handleApproval`, tried in order. */
  function TallyOf(approvals: map<string, string>, totalUsers: nat): (t: Tally)
    ensures t == AllApproved <==> CountDecisions(approvals, APPROVED) == totalUsers
    ensures t == AllRejected <==>
              CountDecisions(approvals, APPROVED) != totalUsers && CountDecisions(approvals, REJECTED) == totalUsers
    ensures t == PartlyRejected <==>
              CountDecisions(approvals, APPROVED) != totalUsers && CountDecisions(approvals, REJECTED) != totalUsers &&
              CountDecisions(approvals, REJECTED) > 0
  {
    var approvedCount := CountDecisions(approvals, APPROVED);
    var rejectedCount := CountDecisions(approvals, REJECTED);
    if approvedCount == totalUsers then AllApproved
    else if rejectedCount == totalUsers then AllRejected
    else if rejectedCount > 0 then PartlyRejected
    else Undecided
  }

  /** When exactly the session's users have voted, and all the same way, the
      tally is unanimous. */
  lemma UnanimousTally(approvals: map<string, string>, decision: string)
    requires decision == APPROVED || decision == REJECTED
    requires approvals != map[] && forall u :: u in approvals ==> approvals[u] == decision
    ensures TallyOf(approvals, |approvals.Keys|) == if decision == APPROVED then AllApproved else AllRejected
  {
    assert (set u | u in approvals && approvals[u] == decision) == approvals.Keys;
    if decision == REJECTED {
      var u :| u in approvals;
      assert (set v | v in approvals && approvals[v] == APPROVED) == {};
      assert u in approvals.Keys;
    }
  }

  /** One vote for and one against between two users is a partial rejection. */
  lemma SplitVoteIsPartial(me: string, other: string)
    requires me != other
    ensures TallyOf(map[other := APPROVED, me := REJECTED], 2) == PartlyRejected
  {
    var m := map[other := APPROVED, me := REJECTED];
    assert (set u | u in m && m[u] == APPROVED) == {other};
    assert (set u | u in m && m[u] == REJECTED) == {me};
  }

  const REJECTION_NOTICE := "Task rejected because one user has declined approval."

  function RejectionNotice(proposalId: string): AgentMessage
  {
    AgentMessage("system-rejection-" + proposalId, SystemKind, REJECTION_NOTICE, None)
  }

  predicate HasId(ms: seq<AgentMessage>, id: string)
  {
    exists i :: 0 <= i < |ms| && ms[i].id == id
  }

  /** Appends the message unless one with its id is already there. */
  function AddOnce(ms: seq<AgentMessage>, m: AgentMessage): (r: seq<AgentMessage>)
    ensures HasId(r, m.id)
  {
    if HasId(ms, m.id) then ms else (assert (ms + [m])[|ms|] == m; ms + [m])
  }

  /** No two entries share the id. */
  predicate AtMostOnce(ms: seq<AgentMessage>, id: string)
  {
    forall i, j :: 0 <= i < j < |ms| && ms[i].id == id ==> ms[j].id != id
  }

  /** Adding the notice again changes nothing, and it never appears twice. */
  lemma AddOnceProperties(ms: seq<AgentMessage>, m: AgentMessage)
    ensures AddOnce(AddOnce(ms, m), m) == AddOnce(ms, m)
    ensures AtMostOnce(ms, m.id) ==> AtMostOnce(AddOnce(ms, m), m.id)
  {
  }

  // ---------------------------------------------------------------------------
  // Prompts: handlePromptSubmit
  // ---------------------------------------------------------------------------

  predicate PromptAccepted(prompt: string, conversation: Option<string>, isSubmitting: bool, cooldown: int)
    ensures PromptAccepted(prompt, conversation, isSubmitting, cooldown) ==> prompt != ""
  {
    !JsBlank(prompt) && conversation.Some? && !isSubmitting && cooldown <= 0
  }

  /** Only with no proposal, or one already answered, does a prompt create a new
      proposal; otherwise it is a follow-up question. */
  predicate MayCreateProposal(proposal: Option<Proposal>)
  {
    proposal.None? || proposal.value.status in {"processed", "rejected_processed"}
  }

  /** A proposal waiting for votes or being processed is never replaced. */
  lemma PendingProposalKept(p: Proposal)
    requires p.status in {"pending", APPROVED, "interrupted", REJECTED}
    ensures !MayCreateProposal(Some(p))
  {
  }

  datatype User = User(id: string, displayName: Option<string>)

  /** `currentUser?.user_metadata?.display_name || 'You'`. */
  function SenderName(u: Option<User>): (name: string)
    ensures name != ""
  {
    if u.Some? then OrDefault(u.value.displayName, "You") else "You"
  }

  const PROMPT_FAILED := "Failed to submit prompt to agent."
  const MOCK_FAILED := "Failed to create mock proposal."
  const SEND_FAILED := "Failed to send message. Please try again."
  const APPROVAL_FAILED := "Failed to sync approval. Please try again."
  const CHAT_CLEARED := "Agent chat has been cleared."
  const SESSION_RESET := "Collaborative session has been reset."

  /** Removing an optimistic entry by its id undoes appending it, provided the
      id was fresh. */
  lemma RevertUndoesOptimisticAgentMessage(ms: seq<AgentMessage>, m: AgentMessage)
    requires !HasId(ms, m.id)
    ensures Keep(ms + [m], (x: AgentMessage) => x.id != m.id) == ms
  {
    AppendThenDrop(ms, m, (x: AgentMessage) => x.id != m.id);
  }

  lemma RevertUndoesOptimisticChatMessage(ms: seq<ChatMessage>, m: ChatMessage)
    requires forall i :: 0 <= i < |ms| ==> ms[i].id != m.id
    ensures RemoveMessage(ms + [m], m.id) == ms
  {
    AppendThenDrop(ms, m, (x: ChatMessage) => x.id != m.id);
  }

  /** `handleInterruptAgent`: only an approved proposal can be stopped; the
      result is the toast shown, with its type. */
  function InterruptAgent(proposal: Option<Proposal>, result: ApiResult): (toast: Option<(string, string)>)
    ensures toast.Some? <==> proposal.Some? && proposal.value.status == APPROVED
  {
    if proposal.None? || proposal.value.status != APPROVED then None
    else if result.ApiOk? then Some(("Agent processing has been stopped.", "info"))
    else Some((OrDefault(result.message, "Failed to stop the agent."), "error"))
  }

  // ---------------------------------------------------------------------------
  // The component's state and its handlers
  // ---------------------------------------------------------------------------

  class Session {
    var prompt: string
    var cooldown: int
    var isSubmitting: bool
    var proposal: Option<Proposal>
    var chatMessages: seq<ChatMessage>
    var agentMessages: seq<AgentMessage>
    var chatInput: string
    var currentUser: Option<User>
    var conversation: Option<string>
    const recipient: Option<string>

    /** The state once the conversation is set up. */
    constructor (recipient: Option<string>, user: User, conversation: string)
      ensures this.recipient == recipient && currentUser == Some(user) && this.conversation == Some(conversation)
      ensures prompt == "" && cooldown == 0 && !isSubmitting && proposal == None
      ensures chatMessages == [] && agentMessages == [] && chatInput == ""
    {
      this.recipient := recipient;
      currentUser := Some(user);
      this.conversation := Some(conversation);
      prompt := "";
      cooldown := 0;
      isSubmitting := false;
      proposal := None;
      chatMessages := [];
      agentMessages := [];
      chatInput := "";
    }

    /** A realtime message event. */
    method ReceiveMessageEvent(e: MessageEvent)
      modifies this
      ensures chatMessages == OnMessageEvent(old(chatMessages), e, if currentUser.Some? then Some(currentUser.value.id) else None)
      ensures unchanged(this`prompt, this`cooldown, this`isSubmitting, this`proposal, this`agentMessages)
      ensures unchanged(this`chatInput, this`currentUser, this`conversation)
    {
      chatMessages := OnMessageEvent(chatMessages, e, if currentUser.Some? then Some(currentUser.value.id) else None);
    }

    /** A realtime proposal event. */
    method ReceiveProposalEvent(e: ProposalEvent)
      modifies this
      ensures AgentView(proposal, agentMessages, isSubmitting, cooldown) ==
              OnProposalEvent(old(AgentView(proposal, agentMessages, isSubmitting, cooldown)), e)
      ensures unchanged(this`prompt, this`chatMessages, this`chatInput, this`currentUser, this`conversation)
    {
      var v := OnProposalEvent(AgentView(proposal, agentMessages, isSubmitting, cooldown), e);
      proposal, agentMessages, isSubmitting, cooldown := v.proposal, v.agentMessages, v.isSubmitting, v.cooldown;
    }

    /** The mock proposal's timer fires: its canned response replaces the
        processing message. */
    method ReceiveMockResponse(p: Proposal)
      modifies this
      ensures agentMessages == OnMockResponse(old(agentMessages), p)
      ensures unchanged(this`prompt, this`cooldown, this`isSubmitting, this`proposal, this`chatMessages)
      ensures unchanged(this`chatInput, this`currentUser, this`conversation)
    {
      agentMessages := OnMockResponse(agentMessages, p);
    }

    /** One second of the cooldown timer: a positive cooldown counts down by one. */
    method Tick()
      modifies this
      ensures cooldown == if old(cooldown) > 0 then old(cooldown) - 1 else old(cooldown)
      ensures unchanged(this`prompt, this`isSubmitting, this`proposal, this`chatMessages, this`agentMessages)
      ensures unchanged(this`chatInput, this`currentUser, this`conversation)
    {
      if cooldown > 0 {
        cooldown := cooldown - 1;
      }
    }

    /** `handleClearAgentChat`: the agent chat is emptied, and an info toast says so. */
    method ClearAgentChat() returns (toast: (string, string))
      modifies this
      ensures agentMessages == [] && toast == (CHAT_CLEARED, "info")
      ensures unchanged(this`prompt, this`cooldown, this`isSubmitting, this`proposal, this`chatMessages)
      ensures unchanged(this`chatInput, this`currentUser, this`conversation)
    {
      agentMessages := [];
      toast := (CHAT_CLEARED, "info");
    }

    /** `handleClearSession`: the proposal, the agent chat and the prompt are reset,
        and an info toast says so. */
    method ClearSession() returns (toast: (string, string))
      modifies this
      ensures proposal == None && agentMessages == [] && prompt == ""
      ensures toast == (SESSION_RESET, "info")
      ensures unchanged(this`cooldown, this`isSubmitting, this`chatMessages, this`chatInput)
      ensures unchanged(this`currentUser, this`conversation)
    {
      proposal, agentMessages, prompt := None, [], "";
      toast := (SESSION_RESET, "info");
    }

    /** `handleChatSubmit`: clears the input, shows the message at once under a
        temporary id, and takes it back if sending fails. */
    method HandleChatSubmit(now: nat, sent: ApiResult) returns (toast: Option<string>)
      modifies this
      ensures JsBlank(old(chatInput)) || old(conversation).None? ==> unchanged(this) && toast.None?
      ensures !JsBlank(old(chatInput)) && old(conversation).Some? ==>
                && chatInput == ""
                && (old(currentUser).None? ==> chatMessages == old(chatMessages) && toast.None?)
                && (old(currentUser).Some? ==>
                      var m := ChatMessage("temp-" + NatToString(now), old(currentUser).value.id, old(chatInput));
                      && (sent.ApiOk? ==> chatMessages == old(chatMessages) + [m] && toast.None?)
                      && (sent.ApiFailed? ==> chatMessages == RemoveMessage(old(chatMessages) + [m], m.id) &&
                                              toast == Some(SEND_FAILED)))
      ensures unchanged(this`prompt, this`cooldown, this`isSubmitting, this`proposal, this`agentMessages)
      ensures unchanged(this`currentUser, this`conversation)
    {
      toast := None;
      if JsBlank(chatInput) || conversation.None? {
        return;
      }
      var content := chatInput;
      chatInput := "";
      if currentUser.None? {
        // reading `currentUser.id` throws, which ends the handler here
        return;
      }
      var m := ChatMessage("temp-" + NatToString(now), currentUser.value.id, content);
      chatMessages := chatMessages + [m];
      if sent.ApiFailed? {
        toast := Some(SEND_FAILED);
        chatMessages := RemoveMessage(chatMessages, m.id);
      }
    }

    /** `handlePromptSubmit`: locks the button, shows the prompt, creates a
        proposal when allowed, and clears the prompt, or on failure takes the
        prompt's entry back. `createRequested` says whether the API was asked
        for a new proposal. */
    method HandlePromptSubmit(now: nat, created: ApiResult) returns (toast: Option<string>, createRequested: bool)
      modifies this
      ensures !PromptAccepted(old(prompt), old(conversation), old(isSubmitting), old(cooldown)) ==>
                unchanged(this) && toast.None? && !createRequested
      ensures PromptAccepted(old(prompt), old(conversation), old(isSubmitting), old(cooldown)) ==>
                var m := AgentMessage("user-prompt-" + NatToString(now), UserKind, old(prompt), Some(SenderName(currentUser)));
                var failed := createRequested && created.ApiFailed?;
                && isSubmitting
                && createRequested == MayCreateProposal(old(proposal))
                && (!failed ==> agentMessages == old(agentMessages) + [m] && prompt == "" && toast.None?)
                && (failed ==> agentMessages == Keep(old(agentMessages) + [m], (x: AgentMessage) => x.id != m.id) &&
                               prompt == old(prompt) && toast == Some(OrDefault(created.message, PROMPT_FAILED)))
      ensures unchanged(this`cooldown, this`proposal, this`chatMessages, this`chatInput, this`currentUser, this`conversation)
    {
      toast, createRequested := None, false;
      if !PromptAccepted(prompt, conversation, isSubmitting, cooldown) {
        return;
      }
      isSubmitting := true;
      var m := AgentMessage("user-prompt-" + NatToString(now), UserKind, prompt, Some(SenderName(currentUser)));
      agentMessages := agentMessages + [m];
      createRequested := MayCreateProposal(proposal);
      if createRequested && created.ApiFailed? {
        toast := Some(OrDefault(created.message, PROMPT_FAILED));
        agentMessages := Keep(agentMessages, (x: AgentMessage) => x.id != m.id);
      } else {
        prompt := "";
      }
    }

    /** `handleMockPromptClick`: like a prompt, but always creates a (mock)
        proposal and does not look at the prompt box. */
    method HandleMockPromptClick(mockPrompt: string, now: nat, created: ApiResult) returns (toast: Option<string>)
      modifies this
      ensures old(conversation).None? || old(isSubmitting) || old(cooldown) > 0 ==> unchanged(this) && toast.None?
      ensures old(conversation).Some? && !old(isSubmitting) && old(cooldown) <= 0 ==>
                var m := AgentMessage("user-prompt-" + NatToString(now), UserKind, mockPrompt, Some(SenderName(currentUser)));
                && isSubmitting
                && (created.ApiOk? ==> agentMessages == old(agentMessages) + [m] && toast.None?)
                && (created.ApiFailed? ==> agentMessages == Keep(old(agentMessages) + [m], (x: AgentMessage) => x.id != m.id) &&
                                           toast == Some(OrDefault(created.message, MOCK_FAILED)))
      ensures unchanged(this`prompt, this`cooldown, this`proposal, this`chatMessages, this`chatInput)
      ensures unchanged(this`currentUser, this`conversation)
    {
      toast := None;
      if conversation.None? || isSubmitting || cooldown > 0 {
        return;
      }
      isSubmitting := true;
      var m := AgentMessage("user-prompt-" + NatToString(now), UserKind, mockPrompt, Some(SenderName(currentUser)));
      agentMessages := agentMessages + [m];
      if created.ApiFailed? {
        toast := Some(OrDefault(created.message, MOCK_FAILED));
        agentMessages := Keep(agentMessages, (x: AgentMessage) => x.id != m.id);
      }
    }

    /** `handleApproval(decision)`: records the user's vote at once, and after
        syncing it asks for the status the tally calls for or posts the
        rejection notice; a failed call puts the old votes back.
        `statusRequest` is the status sent to the API, if any. */
    method HandleApproval(decision: string, synced: ApiResult, statusSynced: ApiResult)
        returns (toast: Option<string>, statusRequest: Option<string>)
      modifies this
      ensures old(proposal).None? || old(currentUser).None? ==> unchanged(this) && toast.None? && statusRequest.None?
      ensures old(proposal).Some? && old(currentUser).Some? ==>
                var p := old(proposal).value;
                var votes := WithDecision(p.approvals, old(currentUser).value.id, decision);
                var tally := TallyOf(votes, if recipient.Some? then 2 else 1);
                var request := if synced.ApiFailed? then None
                               else if tally == AllApproved then Some(APPROVED)
                               else if tally == AllRejected then Some(REJECTED)
                               else None;
                var failed := synced.ApiFailed? || (request.Some? && statusSynced.ApiFailed?);
                && statusRequest == request
                && proposal == Some(if failed then p else p.(approvals := votes))
                && agentMessages == (if !synced.ApiFailed? && tally == PartlyRejected
                                     then AddOnce(old(agentMessages), RejectionNotice(p.id))
                                     else old(agentMessages))
                && toast == (if synced.ApiFailed? then Some(OrDefault(synced.message, APPROVAL_FAILED))
                             else if failed then Some(OrDefault(statusSynced.message, APPROVAL_FAILED))
                             else None)
      ensures unchanged(this`prompt, this`cooldown, this`isSubmitting, this`chatMessages, this`chatInput)
      ensures unchanged(this`currentUser, this`conversation)
    {
      toast, statusRequest := None, None;
      if proposal.None? || currentUser.None? {
        return;
      }
      var p := proposal.value;
      var votes := WithDecision(p.approvals, currentUser.value.id, decision);
      proposal := Some(p.(approvals := votes));
      if synced.ApiFailed? {
        toast := Some(OrDefault(synced.message, APPROVAL_FAILED));
        proposal := Some(p);
        return;
      }
      var tally := TallyOf(votes, if recipient.Some? then 2 else 1);
      if tally == AllApproved {
        statusRequest := Some(APPROVED);
      } else if tally == AllRejected {
        statusRequest := Some(REJECTED);
      } else if tally == PartlyRejected {
        agentMessages := AddOnce(agentMessages, RejectionNotice(p.id));
      }
      if statusRequest.Some? && statusSynced.ApiFailed? {
        toast := Some(OrDefault(statusSynced.message, APPROVAL_FAILED));
        proposal := Some(p);
      }
    }
  }
}

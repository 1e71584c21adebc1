/**
 * One conversation's record and what a batch of inbound activities does to it: the start
 * greeting (`getGreeting`), the forwarded utterances, the outbound activities
 * (`createActivity`) and the message history. The batch is specified here as a function
 * over prefixes of the batch; the handler's loops in the store are proved against it.
 */
module Activities {
  import opened Options
  import opened Strings
  import opened Trust
  import opened Agent

  /** An inbound activity, with the fields the bridge reads; absent fields are None. */
  datatype Inbound = Inbound(kind: Option<string>, name: Option<string>, text: Option<string>, caller: Option<string>)

  /** The fresh values `createActivity` draws: a random UUID and the current ISO timestamp. */
  datatype Stamp = Stamp(uuid: string, timestamp: string)

  /** An outbound activity as `createActivity` builds it. */
  datatype Outbound = Outbound(id: string, timestamp: string, kind: string, text: string)

  /** An entry of `messageHistory`: `{role: 'user', activity}` or `{role: 'assistant', activity}`. */
  datatype HistoryEntry = UserTurn(received: Inbound) | AssistantTurn(sent: Outbound)

  /**
   * A conversation record. `caller` is absent until a start event sets it; `isTrusted` is
   * read by truthiness, so its absence is false.
   */
  datatype Conv = Conv(id: string, bot: string, createdAt: int, lastActivity: int,
                       messageHistory: seq<HistoryEntry>, caller: Option<string>, isTrusted: bool)

  /** The record a create request stores. */
  function NewConv(id: string, bot: string, now: int): Conv {
    Conv(id, bot, now, now, [], None, false)
  }

  /** The trust flag agrees with the classifier applied to the recorded caller. */
  predicate TrustConsistent(trusted: seq<string>, c: Conv) {
    c.isTrusted == IsCallerTrusted(trusted, c.caller)
  }

  function CreateActivity(stamp: Stamp, kind: string, text: string): Outbound {
    Outbound(stamp.uuid, stamp.timestamp, kind, text)
  }

  /** `activity.type === 'event' && activity.name === 'start'` */
  predicate IsStart(a: Inbound) {
    a.kind == Some("event") && a.name == Some("start")
  }

  /** `activity.type === 'message' && activity.text`, reached only when `a` is not a start event. */
  predicate IsUtterance(a: Inbound) {
    !IsStart(a) && a.kind == Some("message") && Truthy(a.text)
  }

  /** The activities that produce exactly one outbound message each. */
  predicate Answered(a: Inbound) {
    IsStart(a) || IsUtterance(a)
  }

  // ---------------------------------------------------------------- greeting

  const TrustedGreeting: string := "Hey Mickey! This is Rex. What's up?"
  const GuardedGreeting: string :=
    "Hi there. This is Rex, Mickey's AI assistant. I can answer general questions, but I can't share private information or take actions on Mickey's behalf. How can I help?"

  /** `startActivity.parameters?.caller || 'unknown'` */
  function CallerOf(a: Inbound): string {
    if Truthy(a.caller) then a.caller.value else "unknown"
  }

  /** The caller and trust flag a start event leaves behind. */
  datatype TrustState = TrustState(caller: Option<string>, isTrusted: bool)

  function Classify(trusted: seq<string>, a: Inbound): TrustState {
    TrustState(Some(CallerOf(a)), IsCallerTrusted(trusted, Some(CallerOf(a))))
  }

  function GreetingText(isTrusted: bool): string {
    if isTrusted then TrustedGreeting else GuardedGreeting
  }

  /**
   * `getGreeting`: every start event overwrites the caller and classifies it again, then
   * greets according to the new flag.
   */
  function Greet(trusted: seq<string>, c: Conv, a: Inbound): (Conv, string) {
    var t := Classify(trusted, a);
    (c.(caller := t.caller, isTrusted := t.isTrusted), GreetingText(t.isTrusted))
  }

  /**
   * A start event always reclassifies, whatever the record held before: the caller becomes
   * the event's caller or "unknown", the flag is the classifier's verdict on it, the greeting
   * is the trusted one exactly when that verdict is true, and nothing else in the record moves.
   */
  lemma GreetSpec(trusted: seq<string>, c: Conv, a: Inbound)
    ensures var (c', g) := Greet(trusted, c, a);
            && c'.caller == Some(CallerOf(a)) && CallerOf(a) != ""
            && (Truthy(a.caller) ==> c'.caller == a.caller)
            && (!Truthy(a.caller) ==> c'.caller == Some("unknown"))
            && c'.isTrusted == IsCallerTrusted(trusted, Some(CallerOf(a)))
            && TrustConsistent(trusted, c')
            && (g == TrustedGreeting <==> c'.isTrusted)
            && (g == GuardedGreeting <==> !c'.isTrusted)
            && c' == c.(caller := c'.caller, isTrusted := c'.isTrusted)
  {
    assert |TrustedGreeting| != |GuardedGreeting|;
  }

  // ---------------------------------------------------------------- one batch

  /**
   * What `getOpenClawResponse` is called with for one forwarded utterance, besides the
   * conversation id: the record's trust flag and caller at that moment, and the text.
   */
  datatype Prompt = Prompt(isTrusted: bool, caller: Option<string>, text: string)

  /** What the handler has built so far: the record, the outbound activities, the backend calls. */
  datatype Batch = Batch(conv: Conv, replies: seq<Outbound>, prompts: seq<Prompt>)

  /** The reply text an answered activity gets. */
  function ReplyText(trusted: seq<string>, a: Inbound, outcome: BackendOutcome): string {
    if IsStart(a) then GreetingText(IsCallerTrusted(trusted, Some(CallerOf(a)))) else Reply(outcome)
  }

  /**
   * One iteration of the handler's first loop: log the activity in the history, then greet
   * a start event, forward a non-empty message, or do nothing.
   */
  function Step(trusted: seq<string>, b: Batch, a: Inbound, outcome: BackendOutcome, stamp: Stamp): Batch {
    var c := b.conv.(messageHistory := b.conv.messageHistory + [UserTurn(a)]);
    if IsStart(a) then
      var (c', greeting) := Greet(trusted, c, a);
      Batch(c', b.replies + [CreateActivity(stamp, "message", greeting)], b.prompts)
    else if IsUtterance(a) then
      Batch(c, b.replies + [CreateActivity(stamp, "message", Reply(outcome))],
            b.prompts + [Prompt(c.isTrusted, c.caller, a.text.value)])
    else
      Batch(c, b.replies, b.prompts)
  }

  /** One step, stated by its effect on each part of the batch. */
  lemma StepSpec(trusted: seq<string>, b: Batch, a: Inbound, outcome: BackendOutcome, stamp: Stamp)
    ensures var b' := Step(trusted, b, a, outcome, stamp);
            && b'.replies == b.replies + (if Answered(a) then [CreateActivity(stamp, "message", ReplyText(trusted, a, outcome))] else [])
            && b'.prompts == b.prompts +
                 (if IsUtterance(a) then [Prompt(b.conv.isTrusted, b.conv.caller, a.text.value)] else [])
            && TrustState(b'.conv.caller, b'.conv.isTrusted) ==
                 (if IsStart(a) then Classify(trusted, a) else TrustState(b.conv.caller, b.conv.isTrusted))
            && b'.conv == b.conv.(messageHistory := b.conv.messageHistory + [UserTurn(a)],
                                  caller := b'.conv.caller, isTrusted := b'.conv.isTrusted)
  {
  }

  /** A step appends to what the batch already holds what it would produce on an empty one. */
  lemma StepAppend(trusted: seq<string>, b: Batch, a: Inbound, outcome: BackendOutcome, stamp: Stamp)
    ensures var x := Step(trusted, Batch(b.conv, [], []), a, outcome, stamp);
            Step(trusted, b, a, outcome, stamp) == Batch(x.conv, b.replies + x.replies, b.prompts + x.prompts)
  {
    assert b.replies + [] == b.replies && b.prompts + [] == b.prompts;
  }

  /** The oracles line up with the batch: one backend outcome and one stamp per inbound activity. */
  predicate Aligned(acts: seq<Inbound>, outcomes: seq<BackendOutcome>, stamps: seq<Stamp>) {
    |outcomes| == |acts| && |stamps| == |acts|
  }

  /** The state after the first `n` activities of the batch. */
  function Translate(trusted: seq<string>, c: Conv, acts: seq<Inbound>, outcomes: seq<BackendOutcome>,
                     stamps: seq<Stamp>, n: nat): Batch
    requires Aligned(acts, outcomes, stamps) && n <= |acts|
  {
    if n == 0 then Batch(c, [], [])
    else Step(trusted, Translate(trusted, c, acts, outcomes, stamps, n - 1), acts[n - 1], outcomes[n - 1], stamps[n - 1])
  }

  function AssistantTurns(replies: seq<Outbound>): seq<HistoryEntry>
  {
    seq(|replies|, k requires 0 <= k < |replies| => AssistantTurn(replies[k]))
  }

  function UserTurns(acts: seq<Inbound>): seq<HistoryEntry>
  {
    seq(|acts|, k requires 0 <= k < |acts| => UserTurn(acts[k]))
  }

  /** The record the handler leaves: the translated one with every reply logged after the inputs. */
  function Finish(b: Batch): Conv {
    b.conv.(messageHistory := b.conv.messageHistory + AssistantTurns(b.replies))
  }

  // ---------------------------------------------------------------- reference definitions

  /** The positions among the first `n` activities whose activity satisfies `p`, in increasing order. */
  function Positions(acts: seq<Inbound>, n: nat, p: Inbound -> bool): (r: seq<nat>)
    requires n <= |acts|
    ensures forall k :: 0 <= k < |r| ==> r[k] < n && p(acts[r[k]])
    ensures forall k, l :: 0 <= k < l < |r| ==> r[k] < r[l]
    ensures forall i :: 0 <= i < n && p(acts[i]) ==> i in r
  {
    if n == 0 then [] else Positions(acts, n - 1, p) + (if p(acts[n - 1]) then [n - 1] else [])
  }

  /** The trust state after the first `n` activities, scanning back from the n-th. */
  function TrustAfter(trusted: seq<string>, init: TrustState, acts: seq<Inbound>, n: nat): TrustState
    requires n <= |acts|
  {
    if n == 0 then init
    else if IsStart(acts[n - 1]) then Classify(trusted, acts[n - 1])
    else TrustAfter(trusted, init, acts, n - 1)
  }

  /** `j` is the latest start event among the first `n` activities. */
  ghost predicate LatestStart(acts: seq<Inbound>, n: nat, j: int) {
    0 <= j < n <= |acts| && IsStart(acts[j]) && forall j' :: j < j' < n ==> !IsStart(acts[j'])
  }

  /** The latest start event decides the trust state; with none, the initial state stands. */
  lemma {:induction false} TrustAfterSpec(trusted: seq<string>, init: TrustState, acts: seq<Inbound>, n: nat)
    requires n <= |acts|
    ensures (forall j :: 0 <= j < n ==> !IsStart(acts[j])) ==> TrustAfter(trusted, init, acts, n) == init
    ensures forall j :: LatestStart(acts, n, j) ==> TrustAfter(trusted, init, acts, n) == Classify(trusted, acts[j])
    decreases n
  {
    if n > 0 {
      TrustAfterSpec(trusted, init, acts, n - 1);
      forall j | LatestStart(acts, n, j)
        ensures TrustAfter(trusted, init, acts, n) == Classify(trusted, acts[j])
      {
        if j < n - 1 {
          assert LatestStart(acts, n - 1, j);
        }
      }
    }
  }

  // ---------------------------------------------------------------- properties of a batch

  /**
   * The history gains one user entry per inbound activity, in order; the record's id, bot,
   * timestamps and its trust-consistency are untouched by the loop.
   */
  lemma {:induction false} TranslateHistory(trusted: seq<string>, c: Conv, acts: seq<Inbound>,
                                            outcomes: seq<BackendOutcome>, stamps: seq<Stamp>, n: nat)
    requires Aligned(acts, outcomes, stamps) && n <= |acts|
    ensures var b := Translate(trusted, c, acts, outcomes, stamps, n);
            && b.conv.messageHistory == c.messageHistory + UserTurns(acts[..n])
            && b.conv.id == c.id && b.conv.bot == c.bot
            && b.conv.createdAt == c.createdAt && b.conv.lastActivity == c.lastActivity
            && (TrustConsistent(trusted, c) ==> TrustConsistent(trusted, b.conv))
    decreases n
  {
    if n > 0 {
      var prev := Translate(trusted, c, acts, outcomes, stamps, n - 1);
      TranslateHistory(trusted, c, acts, outcomes, stamps, n - 1);
      StepSpec(trusted, prev, acts[n - 1], outcomes[n - 1], stamps[n - 1]);
      assert UserTurns(acts[..n]) == UserTurns(acts[..n - 1]) + [UserTurn(acts[n - 1])];
    } else {
      assert UserTurns(acts[..0]) == [];
    }
  }

  /**
   * The history the handler leaves: the old entries, then one user entry per inbound activity,
   * then one assistant entry per reply, each run in order.
   */
  lemma BatchHistory(trusted: seq<string>, c: Conv, acts: seq<Inbound>,
                     outcomes: seq<BackendOutcome>, stamps: seq<Stamp>)
    requires Aligned(acts, outcomes, stamps)
    ensures var b := Translate(trusted, c, acts, outcomes, stamps, |acts|);
            Finish(b).messageHistory == c.messageHistory + UserTurns(acts) + AssistantTurns(b.replies)
  {
    TranslateHistory(trusted, c, acts, outcomes, stamps, |acts|);
    assert acts[..|acts|] == acts;
  }

  /**
   * The caller and trust flag after `n` activities are those of the latest start event among
   * them, or the record's own when there is none.
   */
  lemma {:induction false} TranslateTrust(trusted: seq<string>, c: Conv, acts: seq<Inbound>,
                                          outcomes: seq<BackendOutcome>, stamps: seq<Stamp>, n: nat)
    requires Aligned(acts, outcomes, stamps) && n <= |acts|
    ensures var b := Translate(trusted, c, acts, outcomes, stamps, n);
            TrustState(b.conv.caller, b.conv.isTrusted) == TrustAfter(trusted, TrustState(c.caller, c.isTrusted), acts, n)
    decreases n
  {
    if n > 0 {
      TranslateTrust(trusted, c, acts, outcomes, stamps, n - 1);
      StepSpec(trusted, Translate(trusted, c, acts, outcomes, stamps, n - 1), acts[n - 1], outcomes[n - 1], stamps[n - 1]);
    }
  }

  /** The n-th activity appends at most one reply to those of the first n - 1. */
  lemma RepliesGrow(trusted: seq<string>, c: Conv, acts: seq<Inbound>,
                    outcomes: seq<BackendOutcome>, stamps: seq<Stamp>, n: nat)
    requires Aligned(acts, outcomes, stamps) && 0 < n <= |acts|
    ensures Translate(trusted, c, acts, outcomes, stamps, n).replies ==
            Translate(trusted, c, acts, outcomes, stamps, n - 1).replies +
            (if Answered(acts[n - 1]) then [CreateActivity(stamps[n - 1], "message", ReplyText(trusted, acts[n - 1], outcomes[n - 1]))] else [])
  {
    StepSpec(trusted, Translate(trusted, c, acts, outcomes, stamps, n - 1), acts[n - 1], outcomes[n - 1], stamps[n - 1]);
  }

  /** The n-th activity appends at most one backend call, made with the state before it. */
  lemma PromptsGrow(trusted: seq<string>, c: Conv, acts: seq<Inbound>,
                    outcomes: seq<BackendOutcome>, stamps: seq<Stamp>, n: nat)
    requires Aligned(acts, outcomes, stamps) && 0 < n <= |acts|
    ensures var prev := Translate(trusted, c, acts, outcomes, stamps, n - 1);
            Translate(trusted, c, acts, outcomes, stamps, n).prompts == prev.prompts +
            (if IsUtterance(acts[n - 1]) then [Prompt(prev.conv.isTrusted, prev.conv.caller, acts[n - 1].text.value)] else [])
  {
    StepSpec(trusted, Translate(trusted, c, acts, outcomes, stamps, n - 1), acts[n - 1], outcomes[n - 1], stamps[n - 1]);
  }

  /** One outbound message per answered activity among the first `n`. */
  lemma {:induction false} ReplyCount(trusted: seq<string>, c: Conv, acts: seq<Inbound>,
                                      outcomes: seq<BackendOutcome>, stamps: seq<Stamp>, n: nat)
    requires Aligned(acts, outcomes, stamps) && n <= |acts|
    ensures |Translate(trusted, c, acts, outcomes, stamps, n).replies| == |Positions(acts, n, Answered)|
    decreases n
  {
    if n > 0 {
      ReplyCount(trusted, c, acts, outcomes, stamps, n - 1);
      RepliesGrow(trusted, c, acts, outcomes, stamps, n);
    }
  }

  /** A later activity leaves the earlier replies as they were. */
  lemma ReplyKept(trusted: seq<string>, c: Conv, acts: seq<Inbound>,
                  outcomes: seq<BackendOutcome>, stamps: seq<Stamp>, n: nat, k: nat)
    requires Aligned(acts, outcomes, stamps) && 0 < n <= |acts|
    requires k < |Translate(trusted, c, acts, outcomes, stamps, n - 1).replies|
    ensures var replies := Translate(trusted, c, acts, outcomes, stamps, n).replies;
            k < |replies| && replies[k] == Translate(trusted, c, acts, outcomes, stamps, n - 1).replies[k]
  {
    RepliesGrow(trusted, c, acts, outcomes, stamps, n);
  }

  /** An answered activity adds one reply, with its own stamp and reply text. */
  lemma ReplyNew(trusted: seq<string>, c: Conv, acts: seq<Inbound>,
                 outcomes: seq<BackendOutcome>, stamps: seq<Stamp>, n: nat)
    requires Aligned(acts, outcomes, stamps) && 0 < n <= |acts| && Answered(acts[n - 1])
    ensures var prev := Translate(trusted, c, acts, outcomes, stamps, n - 1).replies;
            var replies := Translate(trusted, c, acts, outcomes, stamps, n).replies;
            |replies| == |prev| + 1 &&
            replies[|prev|] == CreateActivity(stamps[n - 1], "message", ReplyText(trusted, acts[n - 1], outcomes[n - 1]))
  {
    RepliesGrow(trusted, c, acts, outcomes, stamps, n);
  }

  /** The k-th outbound message answers the k-th answered activity, with its stamp and text. */
  lemma {:induction false} ReplyAt(trusted: seq<string>, c: Conv, acts: seq<Inbound>,
                                   outcomes: seq<BackendOutcome>, stamps: seq<Stamp>, n: nat, k: nat)
    requires Aligned(acts, outcomes, stamps) && n <= |acts|
    requires k < |Positions(acts, n, Answered)|
    ensures var replies := Translate(trusted, c, acts, outcomes, stamps, n).replies;
            var i := Positions(acts, n, Answered)[k];
            k < |replies| && replies[k] == CreateActivity(stamps[i], "message", ReplyText(trusted, acts[i], outcomes[i]))
    decreases n
  {
    assert n > 0;
    if k < |Positions(acts, n - 1, Answered)| {
      ReplyAt(trusted, c, acts, outcomes, stamps, n - 1, k);
      ReplyKept(trusted, c, acts, outcomes, stamps, n, k);
    } else {
      ReplyCount(trusted, c, acts, outcomes, stamps, n - 1);
      ReplyNew(trusted, c, acts, outcomes, stamps, n);
    }
  }

  /**
   * Exactly one outbound message per answered activity, in input order: the k-th reply
   * carries the stamp of the k-th answered activity and its text (the greeting for a start
   * event, the backend reply for an utterance); every other activity produces nothing.
   */
  lemma TranslateReplies(trusted: seq<string>, c: Conv, acts: seq<Inbound>,
                         outcomes: seq<BackendOutcome>, stamps: seq<Stamp>)
    requires Aligned(acts, outcomes, stamps)
    ensures var b := Translate(trusted, c, acts, outcomes, stamps, |acts|);
            var pos := Positions(acts, |acts|, Answered);
            && |b.replies| == |pos|
            && forall k :: 0 <= k < |pos| ==>
                 b.replies[k] == CreateActivity(stamps[pos[k]], "message", ReplyText(trusted, acts[pos[k]], outcomes[pos[k]]))
  {
    ReplyCount(trusted, c, acts, outcomes, stamps, |acts|);
    forall k | 0 <= k < |Positions(acts, |acts|, Answered)|
      ensures var pos := Positions(acts, |acts|, Answered);
              Translate(trusted, c, acts, outcomes, stamps, |acts|).replies[k] ==
              CreateActivity(stamps[pos[k]], "message", ReplyText(trusted, acts[pos[k]], outcomes[pos[k]]))
    {
      ReplyAt(trusted, c, acts, outcomes, stamps, |acts|, k);
    }
  }

  /** One backend call per forwarded utterance among the first `n`. */
  lemma {:induction false} PromptCount(trusted: seq<string>, c: Conv, acts: seq<Inbound>,
                                       outcomes: seq<BackendOutcome>, stamps: seq<Stamp>, n: nat)
    requires Aligned(acts, outcomes, stamps) && n <= |acts|
    ensures |Translate(trusted, c, acts, outcomes, stamps, n).prompts| == |Positions(acts, n, IsUtterance)|
    decreases n
  {
    if n > 0 {
      PromptCount(trusted, c, acts, outcomes, stamps, n - 1);
      PromptsGrow(trusted, c, acts, outcomes, stamps, n);
    }
  }

  /** A later activity leaves the earlier backend calls as they were. */
  lemma PromptKept(trusted: seq<string>, c: Conv, acts: seq<Inbound>,
                   outcomes: seq<BackendOutcome>, stamps: seq<Stamp>, n: nat, k: nat)
    requires Aligned(acts, outcomes, stamps) && 0 < n <= |acts|
    requires k < |Translate(trusted, c, acts, outcomes, stamps, n - 1).prompts|
    ensures var prompts := Translate(trusted, c, acts, outcomes, stamps, n).prompts;
            k < |prompts| && prompts[k] == Translate(trusted, c, acts, outcomes, stamps, n - 1).prompts[k]
  {
    PromptsGrow(trusted, c, acts, outcomes, stamps, n);
  }

  /** An utterance adds one backend call, made with the trust state the activities before it left. */
  lemma PromptNew(trusted: seq<string>, c: Conv, acts: seq<Inbound>,
                  outcomes: seq<BackendOutcome>, stamps: seq<Stamp>, n: nat)
    requires Aligned(acts, outcomes, stamps) && 0 < n <= |acts| && IsUtterance(acts[n - 1])
    ensures var prev := Translate(trusted, c, acts, outcomes, stamps, n - 1).prompts;
            var prompts := Translate(trusted, c, acts, outcomes, stamps, n).prompts;
            var t := TrustAfter(trusted, TrustState(c.caller, c.isTrusted), acts, n - 1);
            |prompts| == |prev| + 1 && prompts[|prev|] == Prompt(t.isTrusted, t.caller, acts[n - 1].text.value)
  {
    PromptsGrow(trusted, c, acts, outcomes, stamps, n);
    TranslateTrust(trusted, c, acts, outcomes, stamps, n - 1);
  }

  /**
   * The k-th backend call forwards the k-th utterance's text, with the caller and trust flag
   * left by the activities before it.
   */
  lemma {:induction false} PromptAt(trusted: seq<string>, c: Conv, acts: seq<Inbound>,
                                    outcomes: seq<BackendOutcome>, stamps: seq<Stamp>, n: nat, k: nat)
    requires Aligned(acts, outcomes, stamps) && n <= |acts|
    requires k < |Positions(acts, n, IsUtterance)|
    ensures var prompts := Translate(trusted, c, acts, outcomes, stamps, n).prompts;
            var i := Positions(acts, n, IsUtterance)[k];
            var t := TrustAfter(trusted, TrustState(c.caller, c.isTrusted), acts, i);
            k < |prompts| && prompts[k] == Prompt(t.isTrusted, t.caller, acts[i].text.value)
    decreases n
  {
    assert n > 0;
    if k < |Positions(acts, n - 1, IsUtterance)| {
      PromptAt(trusted, c, acts, outcomes, stamps, n - 1, k);
      PromptKept(trusted, c, acts, outcomes, stamps, n, k);
    } else {
      PromptCount(trusted, c, acts, outcomes, stamps, n - 1);
      PromptNew(trusted, c, acts, outcomes, stamps, n);
    }
  }

  /**
   * Exactly one backend call per forwarded utterance, in input order; the k-th carries the
   * k-th utterance's text and the trust state the activities before it left, which the
   * latest start event among them decides.
   */
  lemma TranslatePrompts(trusted: seq<string>, c: Conv, acts: seq<Inbound>,
                         outcomes: seq<BackendOutcome>, stamps: seq<Stamp>)
    requires Aligned(acts, outcomes, stamps)
    ensures var b := Translate(trusted, c, acts, outcomes, stamps, |acts|);
            var pos := Positions(acts, |acts|, IsUtterance);
            && |b.prompts| == |pos|
            && forall k :: 0 <= k < |pos| ==>
                 var t := TrustAfter(trusted, TrustState(c.caller, c.isTrusted), acts, pos[k]);
                 b.prompts[k] == Prompt(t.isTrusted, t.caller, acts[pos[k]].text.value)
  {
    PromptCount(trusted, c, acts, outcomes, stamps, |acts|);
    forall k | 0 <= k < |Positions(acts, |acts|, IsUtterance)|
      ensures var pos := Positions(acts, |acts|, IsUtterance);
              var t := TrustAfter(trusted, TrustState(c.caller, c.isTrusted), acts, pos[k]);
              Translate(trusted, c, acts, outcomes, stamps, |acts|).prompts[k] == Prompt(t.isTrusted, t.caller, acts[pos[k]].text.value)
    {
      PromptAt(trusted, c, acts, outcomes, stamps, |acts|, k);
    }
  }
}

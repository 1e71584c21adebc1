/**
 * The bridge's in-memory conversation store (the module-level `conversations` Map) and the
 * request handlers that change it: create, activities, refresh, disconnect, and the body of
 * the periodic idle sweep. Time and the backend are inputs; each handler runs to completion.
 */
module Bridge {
  import opened Options
  import opened Strings
  import opened Trust
  import opened Auth
  import opened Agent
  import opened Activities

  /** The expiry window advertised to the call-control side on create and refresh, in seconds. */
  const ExpiresSeconds: int := 120

  /** The sweep's idle threshold: five minutes, in milliseconds. */
  const IdleTimeout: int := 5 * 60 * 1000

  /** A handler's answer: a body, or an error status with its message. */
  datatype Response<T> = Ok(body: T) | Fail(status: int, error: string)

  const NotFoundError: string := "Conversation not found"

  /** The body a successful create returns. */
  datatype CreateReply = CreateReply(activitiesURL: string, refreshURL: string, disconnectURL: string,
                                     expiresSeconds: int)

  function Locators(id: string): CreateReply {
    CreateReply("/conversation/" + id + "/activities", "/conversation/" + id + "/refresh",
                "/conversation/" + id + "/disconnect", ExpiresSeconds)
  }

  /** The three locators are distinct and each names the conversation. */
  lemma LocatorsSpec(id: string)
    ensures var r := Locators(id);
            && r.activitiesURL != r.refreshURL && r.refreshURL != r.disconnectURL
            && r.activitiesURL != r.disconnectURL
            && Includes(r.activitiesURL, id) && Includes(r.refreshURL, id) && Includes(r.disconnectURL, id)
            && r.expiresSeconds == 120
  {
    var r := Locators(id);
    IncludesPiece("/conversation/", id, "/activities");
    IncludesPiece("/conversation/", id, "/refresh");
    IncludesPiece("/conversation/", id, "/disconnect");
    assert |r.activitiesURL| != |r.refreshURL|;
    assert |r.refreshURL| != |r.disconnectURL|;
    var k := |"/conversation/" + id| + 1;
    assert r.activitiesURL[k] == 'a' && r.disconnectURL[k] == 'd';
  }

  /** `f` applied to each element of `s`, in order. */
  function Each<A, B>(f: A -> B, s: seq<A>): seq<B>
  {
    seq(|s|, k requires 0 <= k < |s| => f(s[k]))
  }

  lemma EachAppend<A, B>(f: A -> B, s: seq<A>, t: seq<A>)
    ensures Each(f, s + t) == Each(f, s) + Each(f, t)
  {
    assert forall k :: 0 <= k < |t| ==> (s + t)[|s| + k] == t[k];
  }

  /** The request body `getOpenClawResponse` sends for one backend call of conversation `id`. */
  function RequestOf(id: string): Prompt -> AgentRequest {
    (p: Prompt) => BuildRequest(id, p.isTrusted, p.caller, p.text)
  }

  /** The request bodies a conversation's backend calls send, in order. */
  function RequestsFor(id: string, prompts: seq<Prompt>): seq<AgentRequest> {
    Each(RequestOf(id), prompts)
  }

  /**
   * The k-th request of a batch is built for the k-th forwarded utterance, with the caller and
   * trust flag the activities before it left.
   */
  lemma RequestAt(trusted: seq<string>, c: Conv, acts: seq<Inbound>,
                  outcomes: seq<BackendOutcome>, stamps: seq<Stamp>, k: nat)
    requires Aligned(acts, outcomes, stamps)
    requires k < |Positions(acts, |acts|, IsUtterance)|
    ensures var requests := RequestsFor(c.id, Translate(trusted, c, acts, outcomes, stamps, |acts|).prompts);
            var i := Positions(acts, |acts|, IsUtterance)[k];
            var t := TrustAfter(trusted, TrustState(c.caller, c.isTrusted), acts, i);
            k < |requests| && requests[k] == BuildRequest(c.id, t.isTrusted, t.caller, acts[i].text.value)
  {
    PromptAt(trusted, c, acts, outcomes, stamps, |acts|, k);
  }

  /**
   * The security branch per utterance: the request for the k-th forwarded utterance carries
   * its text under the session key "voice-" + id, and its instructions grant full access
   * exactly when the trust state the activities before it left is trusted, and otherwise end
   * with the restriction rules.
   */
  lemma RequestTrust(trusted: seq<string>, c: Conv, acts: seq<Inbound>,
                     outcomes: seq<BackendOutcome>, stamps: seq<Stamp>, k: nat)
    requires Aligned(acts, outcomes, stamps)
    requires k < |Positions(acts, |acts|, IsUtterance)|
    ensures var requests := RequestsFor(c.id, Translate(trusted, c, acts, outcomes, stamps, |acts|).prompts);
            var i := Positions(acts, |acts|, IsUtterance)[k];
            var t := TrustAfter(trusted, TrustState(c.caller, c.isTrusted), acts, i);
            && k < |requests|
            && requests[k].input == acts[i].text.value && requests[k].user == "voice-" + c.id
            && (EndsWith(requests[k].instructions, FullAccess) <==> t.isTrusted)
            && (EndsWith(requests[k].instructions, Restrictions) <==> !t.isTrusted)
  {
    RequestAt(trusted, c, acts, outcomes, stamps, k);
    var i := Positions(acts, |acts|, IsUtterance)[k];
    var t := TrustAfter(trusted, TrustState(c.caller, c.isTrusted), acts, i);
    InstructionsByTrust(t.isTrusted, t.caller);
  }

  /** An entry the sweep removes: idle for strictly more than the threshold. */
  predicate IsStale(c: Conv, now: int) {
    now - c.lastActivity > IdleTimeout
  }

  /** The store after a sweep at time `now`. */
  function Unexpired(m: map<string, Conv>, now: int): map<string, Conv> {
    map id | id in m && !IsStale(m[id], now) :: m[id]
  }

  /**
   * The sweep's threshold is strict: an entry idle for exactly five minutes survives, one
   * idle a millisecond longer is removed, and survivors are kept exactly as they were.
   */
  lemma SweepThreshold(m: map<string, Conv>, now: int, id: string)
    requires id in m
    ensures now - m[id].lastActivity <= 300000 ==> id in Unexpired(m, now) && Unexpired(m, now)[id] == m[id]
    ensures now - m[id].lastActivity >= 300001 ==> id !in Unexpired(m, now)
  {
  }

  /**
   * Sweeping is monotone in time and idempotent: what a later sweep keeps, an earlier one
   * kept too, and sweeping twice at the same time removes nothing more.
   */
  lemma SweepMonotone(m: map<string, Conv>, earlier: int, later: int)
    requires earlier <= later
    ensures Unexpired(m, later).Keys <= Unexpired(m, earlier).Keys
    ensures Unexpired(Unexpired(m, later), later) == Unexpired(m, later)
  {
  }

  /** The conversations Map, with the configuration the handlers read. */
  class ConversationStore {
    var conversations: map<string, Conv>
    const trustedCallers: seq<string>
    const botToken: string

    /** Every entry is stored under its own id, and its trust flag agrees with its caller. */
    ghost predicate Valid()
      reads this
    {
      forall id :: id in conversations ==>
        conversations[id].id == id && TrustConsistent(trustedCallers, conversations[id])
    }

    constructor (trustedCallers: seq<string>, botToken: string)
      ensures Valid() && conversations == map[]
      ensures this.trustedCallers == trustedCallers && this.botToken == botToken
    {
      this.trustedCallers := trustedCallers;
      this.botToken := botToken;
      conversations := map[];
    }

    /** POST /webhook: store a fresh record under the id, replacing any previous one outright. */
    method Create(authorization: Option<string>, conversation: string, bot: string, now: int)
      returns (r: Response<CreateReply>)
      requires Valid()
      modifies this
      ensures Valid()
      ensures ValidateToken(authorization, botToken).Rejected? ==>
                r == Fail(401, ValidateToken(authorization, botToken).message) && conversations == old(conversations)
      ensures ValidateToken(authorization, botToken) == Accepted ==>
                r == Ok(Locators(conversation)) &&
                conversations == old(conversations)[conversation := NewConv(conversation, bot, now)]
    {
      var auth := ValidateToken(authorization, botToken);
      if auth.Rejected? {
        return Fail(401, auth.message);
      }
      conversations := conversations[conversation := NewConv(conversation, bot, now)];
      r := Ok(Locators(conversation));
    }

    /**
     * `getGreeting` as the handler runs it, statement by statement on the record: set the
     * caller (or "unknown"), classify it again, then pick the greeting by the new flag.
     * `Greet` is its specification; the method returns the updated record in place of
     * assigning to the shared object.
     */
    method GetGreeting(conv: Conv, activity: Inbound) returns (updated: Conv, greeting: string)
      ensures (updated, greeting) == Greet(trustedCallers, conv, activity)
      ensures TrustConsistent(trustedCallers, updated)
    {
      var caller := if Truthy(activity.caller) then activity.caller.value else "unknown";
      updated := conv.(caller := Some(caller));
      updated := updated.(isTrusted := IsCallerTrusted(trustedCallers, Some(caller)));
      if updated.isTrusted {
        greeting := TrustedGreeting;
      } else {
        greeting := GuardedGreeting;
      }
    }

    /**
     * POST /conversation/:id/activities: refresh the timestamp, answer the inbound activities
     * in order, then log the replies. Also returns the requests sent to the backend.
     */
    method PostActivities(authorization: Option<string>, id: string, activities: Option<seq<Inbound>>,
                          now: int, outcomes: seq<BackendOutcome>, stamps: seq<Stamp>)
      returns (r: Response<seq<Outbound>>, requests: seq<AgentRequest>)
      requires Valid()
      requires Aligned(activities.GetOr([]), outcomes, stamps)
      modifies this
      ensures Valid()
      ensures ValidateToken(authorization, botToken).Rejected? ==>
                r == Fail(401, ValidateToken(authorization, botToken).message) && requests == [] &&
                conversations == old(conversations)
      ensures ValidateToken(authorization, botToken) == Accepted && id !in old(conversations) ==>
                r == Fail(404, NotFoundError) && requests == [] && conversations == old(conversations)
      ensures ValidateToken(authorization, botToken) == Accepted && id in old(conversations) ==>
                var acts := activities.GetOr([]);
                var b := Translate(trustedCallers, old(conversations)[id].(lastActivity := now), acts, outcomes, stamps, |acts|);
                && r == Ok(b.replies) && requests == RequestsFor(id, b.prompts)
                && conversations == old(conversations)[id := Finish(b)]
    {
      requests := [];
      var auth := ValidateToken(authorization, botToken);
      if auth.Rejected? {
        return Fail(401, auth.message), [];
      }
      if id !in conversations {
        return Fail(404, NotFoundError), [];
      }
      var start := conversations[id].(lastActivity := now);
      conversations := conversations[id := start];

      var acts := activities.GetOr([]);
      var conv, replies;
      ghost var prompts;
      conv, replies, requests, prompts := AnswerAll(start, acts, outcomes, stamps);
      conv := LogReplies(conv, replies);
      TranslateHistory(trustedCallers, start, acts, outcomes, stamps, |acts|);
      conversations := conversations[id := conv];
      r := Ok(replies);
    }

    /**
     * One pass of the handler's first loop: log the activity as a user turn, then greet a
     * start event or forward a non-empty message, producing at most one outbound activity
     * and at most one backend request.
     */
    method AnswerOne(conv: Conv, activity: Inbound, outcome: BackendOutcome, stamp: Stamp)
      returns (updated: Conv, out: seq<Outbound>, sent: seq<AgentRequest>, ghost asked: seq<Prompt>)
      ensures Batch(updated, out, asked) == Step(trustedCallers, Batch(conv, [], []), activity, outcome, stamp)
      ensures sent == RequestsFor(conv.id, asked)
      ensures updated.id == conv.id
    {
      updated := conv.(messageHistory := conv.messageHistory + [UserTurn(activity)]);
      out, sent, asked := [], [], [];
      if activity.kind == Some("event") && activity.name == Some("start") {
        var greeting;
        updated, greeting := GetGreeting(updated, activity);
        out := [CreateActivity(stamp, "message", greeting)];
      } else if activity.kind == Some("message") && Truthy(activity.text) {
        var request, response := GetOpenClawResponse(updated.id, updated.isTrusted, updated.caller, activity.text.value, outcome);
        sent := [request];
        asked := [Prompt(updated.isTrusted, updated.caller, activity.text.value)];
        out := [CreateActivity(stamp, "message", response)];
      }
    }

    /**
     * The handler's first loop: answer each inbound activity in order, collecting the
     * outbound activities and the backend requests; the result is the batch specification's.
     */
    method AnswerAll(conv: Conv, acts: seq<Inbound>, outcomes: seq<BackendOutcome>, stamps: seq<Stamp>)
      returns (updated: Conv, replies: seq<Outbound>, requests: seq<AgentRequest>, ghost prompts: seq<Prompt>)
      requires Aligned(acts, outcomes, stamps)
      ensures Batch(updated, replies, prompts) == Translate(trustedCallers, conv, acts, outcomes, stamps, |acts|)
      ensures requests == RequestsFor(conv.id, prompts)
    {
      updated, replies, requests, prompts := conv, [], [], [];
      var i := 0;
      while i < |acts|
        invariant 0 <= i <= |acts|
        invariant Batch(updated, replies, prompts) == Translate(trustedCallers, conv, acts, outcomes, stamps, i)
        invariant updated.id == conv.id && requests == RequestsFor(conv.id, prompts)
      {
        var next, out, sent;
        ghost var asked;
        next, out, sent, asked := AnswerOne(updated, acts[i], outcomes[i], stamps[i]);
        StepAppend(trustedCallers, Batch(updated, replies, prompts), acts[i], outcomes[i], stamps[i]);
        EachAppend(RequestOf(conv.id), prompts, asked);
        updated, replies, requests, prompts := next, replies + out, requests + sent, prompts + asked;
        i := i + 1;
      }
    }

    /** The handler's second loop: append one assistant turn per outbound activity, in order. */
    method LogReplies(conv: Conv, replies: seq<Outbound>) returns (logged: Conv)
      ensures logged == conv.(messageHistory := conv.messageHistory + AssistantTurns(replies))
    {
      logged := conv;
      var k := 0;
      while k < |replies|
        invariant 0 <= k <= |replies|
        invariant logged == conv.(messageHistory := conv.messageHistory + AssistantTurns(replies[..k]))
      {
        assert AssistantTurns(replies[..k + 1]) == AssistantTurns(replies[..k]) + [AssistantTurn(replies[k])];
        logged := logged.(messageHistory := logged.messageHistory + [AssistantTurn(replies[k])]);
        k := k + 1;
      }
      assert replies[..k] == replies;
    }

    /** POST /conversation/:id/refresh: only that entry's last-activity time moves, to `now`. */
    method Refresh(authorization: Option<string>, id: string, now: int) returns (r: Response<int>)
      requires Valid()
      modifies this
      ensures Valid()
      ensures ValidateToken(authorization, botToken).Rejected? ==>
                r == Fail(401, ValidateToken(authorization, botToken).message) && conversations == old(conversations)
      ensures ValidateToken(authorization, botToken) == Accepted && id !in old(conversations) ==>
                r == Fail(404, NotFoundError) && conversations == old(conversations)
      ensures ValidateToken(authorization, botToken) == Accepted && id in old(conversations) ==>
                r == Ok(ExpiresSeconds) &&
                conversations == old(conversations)[id := old(conversations)[id].(lastActivity := now)]
    {
      var auth := ValidateToken(authorization, botToken);
      if auth.Rejected? {
        return Fail(401, auth.message);
      }
      if id !in conversations {
        return Fail(404, NotFoundError);
      }
      conversations := conversations[id := conversations[id].(lastActivity := now)];
      r := Ok(ExpiresSeconds);
    }

    /** POST /conversation/:id/disconnect: remove exactly that entry and keep every other. */
    method Disconnect(authorization: Option<string>, id: string) returns (r: Response<()>)
      requires Valid()
      modifies this
      ensures Valid()
      ensures ValidateToken(authorization, botToken).Rejected? ==>
                r == Fail(401, ValidateToken(authorization, botToken).message) && conversations == old(conversations)
      ensures ValidateToken(authorization, botToken) == Accepted && id !in old(conversations) ==>
                r == Fail(404, NotFoundError) && conversations == old(conversations)
      ensures ValidateToken(authorization, botToken) == Accepted && id in old(conversations) ==>
                r == Ok(()) && conversations == old(conversations) - {id}
    {
      var auth := ValidateToken(authorization, botToken);
      if auth.Rejected? {
        return Fail(401, auth.message);
      }
      if id !in conversations {
        return Fail(404, NotFoundError);
      }
      conversations := conversations - {id};
      r := Ok(());
    }

    /** The body of the periodic cleanup: delete, one by one, every entry idle too long. */
    method Sweep(now: int)
      requires Valid()
      modifies this
      ensures Valid()
      ensures conversations == Unexpired(old(conversations), now)
    {
      ghost var before := conversations;
      var pending := conversations.Keys;
      while pending != {}
        invariant pending <= before.Keys
        invariant forall id :: id in conversations <==> id in before && (id in pending || !IsStale(before[id], now))
        invariant forall id :: id in conversations ==> conversations[id] == before[id]
        decreases pending
      {
        var id :| id in pending;
        if now - conversations[id].lastActivity > IdleTimeout {
          conversations := conversations - {id};
        }
        pending := pending - {id};
      }
      assert conversations == Unexpired(before, now);
    }
  }
}

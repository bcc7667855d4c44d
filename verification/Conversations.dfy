/** The exchanges one RPC has with the lock set and the cloud, in order. */
module Conversations {
  import opened Wrappers
  import opened ControllerProgram
  import opened ControllerSystem

  datatype Exchange = Exchange(action: Action, reply: Reply)

  type Log = seq<Exchange>

  /** Where an RPC stands after the exchanges of a log. */
  ghost function After(t: Rpc, log: Log): Rpc {
    if log == [] then t else
    var u := After(t, log[..|log| - 1]);
    if Active(u) then Resume(u, log[|log| - 1].reply) else u
  }

  /** Every exchange of the log is the one the RPC makes next at that point. */
  ghost predicate Follows(t: Rpc, log: Log) {
    log == [] ||
    var u := After(t, log[..|log| - 1]);
    Follows(t, log[..|log| - 1]) && Active(u) && log[|log| - 1].action == NextAction(u)
  }

  lemma Extend(t: Rpc, log: Log, e: Exchange)
    requires Follows(t, log) && Active(After(t, log)) && e.action == NextAction(After(t, log))
    ensures Follows(t, log + [e]) && After(t, log + [e]) == Resume(After(t, log), e.reply)
  {
    assert (log + [e])[..|log|] == log;
  }

  lemma {:induction false} AfterIsWellFormed(t: Rpc, log: Log)
    requires WellFormedRpc(t) && Follows(t, log)
    ensures WellFormedRpc(After(t, log)) && After(t, log).req == t.req
  {
    if log != [] {
      AfterIsWellFormed(t, log[..|log| - 1]);
      ResumeIsWellFormed(After(t, log[..|log| - 1]), log[|log| - 1].reply);
    }
  }

  /** The first answer to a query about a disk. */
  function FirstSight(log: Log): Option<Reply> {
    if log == [] then None else
    var before := FirstSight(log[..|log| - 1]);
    if before.Some? then before
    else if log[|log| - 1].action.Ask? && log[|log| - 1].action.call.DescribeDisk? then Some(log[|log| - 1].reply)
    else None
  }

  /** What RPC `i` has exchanged in the first `n` steps of a run. */
  ghost function History(ss: seq<State>, ls: seq<Label>, n: nat, i: nat): Log
    requires IsRun(ss, ls) && n < |ss|
  {
    if n == 0 then [] else
    if MoveOf(ls[n - 1], i).Moved? then History(ss, ls, n - 1, i) + [ExchangeAt(ss, ls, n - 1)]
    else History(ss, ls, n - 1, i)
  }

  ghost function ExchangeAt(ss: seq<State>, ls: seq<Label>, k: nat): Exchange
    requires IsRun(ss, ls) && k < |ls| && ls[k].Drive?
  {
    assert StepsTo(ss, ls, k);
    Exchange(NextAction(ss[k].rpcs[ls[k].i]), ls[k].reply)
  }

  lemma {:induction false} NothingBeforeStart(ss: seq<State>, ls: seq<Label>, n: nat, i: nat)
    requires IsRun(ss, ls) && n < |ss| && i !in ss[n].rpcs
    ensures History(ss, ls, n, i) == []
  {
    if n > 0 {
      assert StepsTo(ss, ls, n - 1);
      NothingBeforeStart(ss, ls, n - 1, i);
    }
  }

  /** The log is a conversation of the RPC's program and has led to where the RPC stands. */
  ghost predicate IsConversation(t: Rpc, log: Log) {
    Follows(Start(t.req), log) && After(Start(t.req), log) == t
  }

  lemma ConversationGoesOn(ss: seq<State>, ls: seq<Label>, k: nat, log: Log)
    requires IsRun(ss, ls) && k < |ls| && ls[k].Drive? && StepsTo(ss, ls, k)
    requires IsConversation(ss[k].rpcs[ls[k].i], log)
    ensures IsConversation(ss[k + 1].rpcs[ls[k].i], log + [ExchangeAt(ss, ls, k)])
  {
    var t := ss[k].rpcs[ls[k].i];
    ResumeKeepsRequest(t, ls[k].reply);
    Extend(Start(t.req), log, ExchangeAt(ss, ls, k));
  }

  /** Who is in a state of a run was there before, or begins with its program's start. */
  lemma Arrives(ss: seq<State>, ls: seq<Label>, k: nat, i: nat)
    requires IsRun(ss, ls) && k < |ls| && StepsTo(ss, ls, k) && i in ss[k + 1].rpcs && !MoveOf(ls[k], i).Moved?
    ensures if MoveOf(ls[k], i).Began? then i !in ss[k].rpcs && ss[k + 1].rpcs[i] == Start(ls[k].req)
            else i in ss[k].rpcs && ss[k + 1].rpcs[i] == ss[k].rpcs[i]
  {
  }

  /**
   However RPCs interleave, what each of them exchanges is a conversation of its own
   program: so all that is proved of single conversations holds in every run.
   */
  lemma {:induction false} RunsAreConversations(ss: seq<State>, ls: seq<Label>, n: nat, i: nat)
    requires IsRun(ss, ls) && n < |ss| && i in ss[n].rpcs
    ensures IsConversation(ss[n].rpcs[i], History(ss, ls, n, i))
  {
    if n > 0 {
      assert StepsTo(ss, ls, n - 1);
      match MoveOf(ls[n - 1], i)
      case Began => ConversationBegins(ss, ls, n - 1, i);
      case Stayed => {
        Arrives(ss, ls, n - 1, i);
        RunsAreConversations(ss, ls, n - 1, i);
      }
      case Moved => {
        RunsAreConversations(ss, ls, n - 1, i);
        ConversationGoesOn(ss, ls, n - 1, History(ss, ls, n - 1, i));
      }
    }
  }

  lemma ConversationBegins(ss: seq<State>, ls: seq<Label>, k: nat, i: nat)
    requires IsRun(ss, ls) && k < |ls| && StepsTo(ss, ls, k) && MoveOf(ls[k], i).Began? && i in ss[k + 1].rpcs
    ensures IsConversation(ss[k + 1].rpcs[i], History(ss, ls, k + 1, i))
  {
    Arrives(ss, ls, k, i);
    NothingBeforeStart(ss, ls, k, i);
    StartKeepsRequest(ls[k].req);
  }

  lemma StartKeepsRequest(req: Request)
    ensures IsConversation(Start(req), [])
  {
  }
}

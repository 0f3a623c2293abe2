/** The hosted chat service as the routes see it: the server-side client `serverSideClient`,
    which receives calls and answers each with a value or a thrown error. Nothing of what the
    service does with a call is modelled; its answers are an input. */
module StreamService {
  import opened Wrappers

  /** A user record as sent to `updateUser`. */
  datatype User = User(id: string, name: string)

  /** The data given to `channel(type, id, data)`: display name, `created_by.id`, and the
      initial member list when one is given. */
  datatype ChannelData = ChannelData(name: string, createdBy: string, members: Option<seq<string>>)

  /** Every call a route makes on the client, with its arguments. */
  datatype Call =
    | CreateToken(userId: string)
    | UpdateUser(user: User, token: string)
    | OpenChannel(kind: string, id: string, data: ChannelData)
    | CreateChannel(kind: string, id: string)
    | AddMembers(kind: string, id: string, members: seq<string>)

  /** A call returns (for `createToken`, the token) or throws an error with a message. */
  datatype Outcome = Done(value: string) | Thrown(message: string)

  /** The service's behaviour: its answer to a call, given every call it received before. */
  type Service = (seq<Call>, Call) -> Outcome

  /** The calls a route sent, in order, and the message of the error that stopped it, if any. */
  datatype Exec = Exec(sent: seq<Call>, error: Option<string>)

  /** The answer to step i of a plan, when the steps before it were all sent after `history`. */
  function Answer(service: Service, history: seq<Call>, plan: seq<Call>, i: nat): Outcome
    requires i < |plan|
  {
    service(history + plan[..i], plan[i])
  }

  /** The first k steps of the plan all return normally. */
  predicate DoneBefore(service: Service, history: seq<Call>, plan: seq<Call>, k: nat)
    requires k <= |plan|
  {
    forall i :: 0 <= i < k ==> Answer(service, history, plan, i).Done?
  }

  lemma AnswerShift(service: Service, history: seq<Call>, plan: seq<Call>, i: nat)
    requires 0 < |plan| && i < |plan| - 1
    ensures Answer(service, history + [plan[0]], plan[1..], i) == Answer(service, history, plan, i + 1)
  {
    assert history + [plan[0]] + plan[1..][..i] == history + plan[..i + 1];
  }

  /** A plan whose first step returns normally: its steps return normally as far as the rest
      of the plan, sent after that first step, does. */
  lemma DoneBeforeShift(service: Service, history: seq<Call>, plan: seq<Call>, j: nat)
    requires 0 < |plan| && j < |plan| && Answer(service, history, plan, 0).Done?
    requires DoneBefore(service, history + [plan[0]], plan[1..], j)
    ensures DoneBefore(service, history, plan, j + 1)
  {
    forall i | 0 < i < j + 1 ensures Answer(service, history, plan, i).Done? {
      AnswerShift(service, history, plan, i - 1);
    }
  }

  /** A sequence of awaited calls inside one `try` block: the calls are sent in plan order;
      the first that throws ends the block, and nothing after it is sent. */
  function Perform(service: Service, history: seq<Call>, plan: seq<Call>): (e: Exec)
    ensures |e.sent| <= |plan| && e.sent == plan[..|e.sent|]
    ensures e.error.None? ==> e.sent == plan && DoneBefore(service, history, plan, |plan|)
    ensures e.error.Some? ==>
              0 < |e.sent|
              && DoneBefore(service, history, plan, |e.sent| - 1)
              && Answer(service, history, plan, |e.sent| - 1) == Thrown(e.error.value)
    decreases |plan|
  {
    if plan == [] then Exec([], None)
    else
      assert Answer(service, history, plan, 0) == service(history, plan[0]) by {
        assert history + plan[..0] == history;
      }
      match service(history, plan[0])
      case Thrown(m) => Exec([plan[0]], Some(m))
      case Done(_) =>
        var rest := Perform(service, history + [plan[0]], plan[1..]);
        DoneBeforeShift(service, history, plan, if rest.error.Some? then |rest.sent| - 1 else |rest.sent|);
        assert rest.error.Some? ==> Answer(service, history, plan, |rest.sent|) == Thrown(rest.error.value) by {
          if rest.error.Some? {
            AnswerShift(service, history, plan, |rest.sent| - 1);
          }
        }
        Exec([plan[0]] + rest.sent, rest.error)
  }

  /** The whole plan is sent, without error, exactly when every step returns normally. */
  lemma PerformSucceedsIff(service: Service, history: seq<Call>, plan: seq<Call>)
    ensures Perform(service, history, plan).error.None? <==> DoneBefore(service, history, plan, |plan|)
    ensures Perform(service, history, plan).error.None? ==> Perform(service, history, plan).sent == plan
  {
  }

  /** When every step returns normally, the whole plan is sent and no error is reported. */
  lemma PerformAllDone(service: Service, history: seq<Call>, plan: seq<Call>)
    requires DoneBefore(service, history, plan, |plan|)
    ensures Perform(service, history, plan) == Exec(plan, None)
  {
  }

  /** When step k is the first that throws, steps 0..k are sent and k's message is reported. */
  lemma PerformStopsAt(service: Service, history: seq<Call>, plan: seq<Call>, k: nat)
    requires k < |plan| && DoneBefore(service, history, plan, k)
    requires Answer(service, history, plan, k).Thrown?
    ensures Perform(service, history, plan)
            == Exec(plan[..k + 1], Some(Answer(service, history, plan, k).message))
  {
  }

  /** The server-side client: an abstract recorder of the calls it receives. */
  class Client {
    const service: Service
    var log: seq<Call>

    constructor (service: Service)
      ensures this.service == service && log == []
    {
      this.service := service;
      log := [];
    }

    /** Send one call: it is appended to the log and answered by the service. */
    method Send(c: Call) returns (o: Outcome)
      modifies this
      ensures log == old(log) + [c]
      ensures o == service(old(log), c)
    {
      o := service(log, c);
      log := log + [c];
    }
  }
}

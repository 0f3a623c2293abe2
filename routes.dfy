/** The two provisioning routes, `POST /customer-login` and `POST /admin-login`. Inside one
    `try` block each one normalises the submitted identity, mints a token, upserts a user,
    describes and creates a channel, adds members and answers 200; any throw, from the
    normalisation or from a call, answers 500 with the error's message. */
module Routes {
  import opened Wrappers
  import opened Identity
  import opened StreamService

  /** A field of the JSON request body: a string, or any other value, on which calling
      `.replace` throws a TypeError with the given message. */
  datatype Field = Text(text: string) | NotText(typeError: string)

  datatype CustomerRequest = CustomerRequest(firstName: Field, lastName: Field, email: Field)

  datatype AdminRequest = AdminRequest(adminId: Field)

  /** The JSON bodies the routes answer with. */
  datatype Body =
    | CustomerCredentials(customerId: string, channelId: string, customerToken: string, streamApiKey: string)
    | AdminCredentials(adminName: string, adminToken: string, streamApiKey: string)
    | ErrorBody(error: string)

  datatype Response = Response(status: int, body: Body)

  /** What one request does: the calls it sends to the service, and its response. */
  datatype Run = Run(calls: seq<Call>, response: Response)

  const ChannelType := "messaging"
  const AdminId := "admin"
  const SupportChannel := "livechat"
  const SupportChannelName := "Customer Support Dashboard"

  /** The `catch` branch: status 500 with the error's message. */
  function Failure(message: string): Response
  {
    Response(500, ErrorBody(message))
  }

  /** The end of the `try` block: 200 with the credentials, unless a call threw. */
  function Conclude(e: Exec, credentials: Body): Response
  {
    match e.error
    case None => Response(200, credentials)
    case Some(m) => Failure(m)
  }

  /** The token `createToken(username)` returns. When it throws, no later call is sent, so the
      empty string put here is never observed. */
  function IssuedToken(service: Service, history: seq<Call>, username: string): string
  {
    match service(history, CreateToken(username))
    case Done(t) => t
    case Thrown(_) => ""
  }

  /** The customer route's calls, in order, for an identity, a display name and a token. */
  function CustomerPlan(username: string, name: string, token: string): seq<Call>
  {
    var members := [username, AdminId];
    [ CreateToken(username),
      UpdateUser(User(username, name), token),
      OpenChannel(ChannelType, username, ChannelData("Chat with " + username, AdminId, Some(members))),
      CreateChannel(ChannelType, username),
      AddMembers(ChannelType, username, members) ]
  }

  /** The customer route's calls for the names `first` and `last`. */
  function CustomerSteps(service: Service, history: seq<Call>, first: string, last: string): seq<Call>
  {
    var username := CustomerUsername(first, last);
    CustomerPlan(username, ReplaceWhitespace(first), IssuedToken(service, history, username))
  }

  /** The admin route's calls, in order, after `createToken(username)`: none depends on the
      submitted identity. */
  function AdminSetup(token: string): seq<Call>
  {
    [ UpdateUser(User(AdminId, AdminId), token),
      OpenChannel(ChannelType, SupportChannel, ChannelData(SupportChannelName, AdminId, None)),
      CreateChannel(ChannelType, SupportChannel),
      AddMembers(ChannelType, SupportChannel, [AdminId]) ]
  }

  function AdminPlan(username: string, token: string): seq<Call>
  {
    [CreateToken(username)] + AdminSetup(token)
  }

  function AdminSteps(service: Service, history: seq<Call>, adminId: string): seq<Call>
  {
    var username := Normalize(adminId);
    AdminPlan(username, IssuedToken(service, history, username))
  }

  /** `POST /customer-login`, against a service that has already received `history`. */
  function CustomerLogin(req: CustomerRequest, streamApiKey: string, service: Service, history: seq<Call>): Run
  {
    match req.firstName
    case NotText(m) => Run([], Failure(m))
    case Text(first) =>
      match req.lastName
      case NotText(m) => Run([], Failure(m))
      case Text(last) =>
        var username := CustomerUsername(first, last);
        var token := IssuedToken(service, history, username);
        var e := Perform(service, history, CustomerSteps(service, history, first, last));
        Run(e.sent, Conclude(e, CustomerCredentials(username, username, token, streamApiKey)))
  }

  /** `POST /admin-login`, against a service that has already received `history`. */
  function AdminLogin(req: AdminRequest, streamApiKey: string, service: Service, history: seq<Call>): Run
  {
    match req.adminId
    case NotText(m) => Run([], Failure(m))
    case Text(id) =>
      var username := Normalize(id);
      var token := IssuedToken(service, history, username);
      var e := Perform(service, history, AdminSteps(service, history, id));
      Run(e.sent, Conclude(e, AdminCredentials(username, token, streamApiKey)))
  }

  // ---------------------------------------------------------------------------------------
  // The customer route

  /** A body field that is not a string fails the request before any call is sent; the first
      name is read before the last name. */
  lemma CustomerLoginRejectsNonText(req: CustomerRequest, key: string, service: Service, history: seq<Call>)
    ensures req.firstName.NotText? ==>
              CustomerLogin(req, key, service, history) == Run([], Failure(req.firstName.typeError))
    ensures req.firstName.Text? && req.lastName.NotText? ==>
              CustomerLogin(req, key, service, history) == Run([], Failure(req.lastName.typeError))
  {
  }

  /** The control flow of the customer route: its calls are the plan's, in order; it answers
      200 exactly when every call returns, having sent all of them; otherwise it answers 500
      with the message of the first call that threw, and that call is the last one sent. */
  lemma CustomerLoginOutcome(first: string, last: string, email: Field, key: string,
                             service: Service, history: seq<Call>)
    ensures var run := CustomerLogin(CustomerRequest(Text(first), Text(last), email), key, service, history);
            var plan := CustomerSteps(service, history, first, last);
            && |run.calls| <= |plan| && run.calls == plan[..|run.calls|]
            && (run.response.status == 200 <==> DoneBefore(service, history, plan, |plan|))
            && (run.response.status == 200 ==> run.calls == plan && run.response.body.CustomerCredentials?)
            && (run.response.status != 200 ==>
                  && run.response == Failure(run.response.body.error)
                  && 0 < |run.calls|
                  && DoneBefore(service, history, plan, |run.calls| - 1)
                  && Answer(service, history, plan, |run.calls| - 1) == Thrown(run.response.body.error))
  {
  }

  /** What a successful customer login returns and sends: one identity, the normalised names,
      is the token's subject, the user id, the channel id and the returned `customerId` and
      `channelId`; the user's display name is the first name with its whitespace replaced but
      its case kept; the returned token is the one `createToken` gave and the one `updateUser`
      was called with; the channel is created by the admin, and the member list that
      `addMembers` is given is the channel's initial member list, the customer and the admin. */
  lemma CustomerLoginSuccess(first: string, last: string, email: Field, key: string,
                             service: Service, history: seq<Call>)
    requires CustomerLogin(CustomerRequest(Text(first), Text(last), email), key, service, history).response.status == 200
    ensures var run := CustomerLogin(CustomerRequest(Text(first), Text(last), email), key, service, history);
            var u := run.response.body.customerId;
            && run.response.body.CustomerCredentials?
            && u == run.response.body.channelId
            && u == Normalize(first) + Normalize(last)
            && IsNormalized(u) && |u| == |first| + |last|
            && run.response.body.streamApiKey == key
            && |run.calls| == 5
            && run.calls[0] == CreateToken(u)
            && service(history, run.calls[0]) == Done(run.response.body.customerToken)
            && run.calls[1] == UpdateUser(User(u, ReplaceWhitespace(first)), run.response.body.customerToken)
            && run.calls[2].OpenChannel? && run.calls[2].kind == ChannelType && run.calls[2].id == u
            && run.calls[2].data == ChannelData("Chat with " + u, AdminId, Some([u, AdminId]))
            && run.calls[3] == CreateChannel(ChannelType, u)
            && run.calls[4] == AddMembers(ChannelType, u, run.calls[2].data.members.value)
  {
    var plan := CustomerSteps(service, history, first, last);
    PerformSucceedsIff(service, history, plan);
    CustomerUsernameSplits(first, last);
    CustomerUsernameIsNormalized(first, last);
    assert history + plan[..0] == history;
  }

  /** The `email` field is never read. */
  lemma EmailIsNeverRead(req: CustomerRequest, email: Field, key: string, service: Service, history: seq<Call>)
    ensures CustomerLogin(req.(email := email), key, service, history) == CustomerLogin(req, key, service, history)
  {
  }

  /** Logging in twice with the same names sends the same calls, for the same identity and the
      same channel and members, however far each attempt gets and whatever the service answered
      in between; only the token given to `updateUser` can differ. */
  lemma CustomerRetryTargetsSameChannel(first: string, last: string, e1: Field, e2: Field, key: string,
                                        service: Service, h1: seq<Call>, h2: seq<Call>)
    ensures var r1 := CustomerLogin(CustomerRequest(Text(first), Text(last), e1), key, service, h1).calls;
            var r2 := CustomerLogin(CustomerRequest(Text(first), Text(last), e2), key, service, h2).calls;
            forall i :: 0 <= i < |r1| && i < |r2| ==>
              if i == 1 then r1[i].UpdateUser? && r2[i].UpdateUser? && r1[i].user == r2[i].user
              else r1[i] == r2[i]
  {
  }

  // ---------------------------------------------------------------------------------------
  // The admin route

  lemma AdminLoginRejectsNonText(req: AdminRequest, key: string, service: Service, history: seq<Call>)
    ensures req.adminId.NotText? ==>
              AdminLogin(req, key, service, history) == Run([], Failure(req.adminId.typeError))
  {
  }

  /** The control flow of the admin route, as for the customer route. */
  lemma AdminLoginOutcome(id: string, key: string, service: Service, history: seq<Call>)
    ensures var run := AdminLogin(AdminRequest(Text(id)), key, service, history);
            var plan := AdminSteps(service, history, id);
            && |run.calls| <= |plan| && run.calls == plan[..|run.calls|]
            && (run.response.status == 200 <==> DoneBefore(service, history, plan, |plan|))
            && (run.response.status == 200 ==> run.calls == plan && run.response.body.AdminCredentials?)
            && (run.response.status != 200 ==>
                  && run.response == Failure(run.response.body.error)
                  && 0 < |run.calls|
                  && DoneBefore(service, history, plan, |run.calls| - 1)
                  && Answer(service, history, plan, |run.calls| - 1) == Thrown(run.response.body.error))
  {
  }

  /** What a successful admin login returns: `adminName` is the normalised identity, which is
      also the token's subject, and the returned token is the one `createToken` gave. */
  lemma AdminLoginSuccess(id: string, key: string, service: Service, history: seq<Call>)
    requires AdminLogin(AdminRequest(Text(id)), key, service, history).response.status == 200
    ensures var run := AdminLogin(AdminRequest(Text(id)), key, service, history);
            && run.response.body.AdminCredentials?
            && run.response.body.adminName == Normalize(id)
            && IsNormalized(run.response.body.adminName)
            && run.response.body.streamApiKey == key
            && |run.calls| == 5
            && run.calls[0] == CreateToken(run.response.body.adminName)
            && service(history, run.calls[0]) == Done(run.response.body.adminToken)
            && run.calls[1..] == AdminSetup(run.response.body.adminToken)
  {
  }

  /** The submitted admin identity is used only as the token's subject: whatever the request
      and however far the route gets, every other call it sends is one of the fixed calls on
      the user `admin` and the channel `livechat`, and `addMembers` adds the admin alone. */
  lemma AdminIdentityOnlyInToken(req: AdminRequest, key: string, service: Service, history: seq<Call>)
    ensures var run := AdminLogin(req, key, service, history);
            forall i :: 0 <= i < |run.calls| && 0 < i ==>
              && !run.calls[i].CreateToken?
              && (run.calls[i].UpdateUser? ==> run.calls[i].user == User(AdminId, AdminId))
              && (run.calls[i].OpenChannel? ==>
                    run.calls[i].kind == ChannelType && run.calls[i].id == SupportChannel
                    && run.calls[i].data == ChannelData(SupportChannelName, AdminId, None))
              && (run.calls[i].CreateChannel? ==> run.calls[i] == CreateChannel(ChannelType, SupportChannel))
              && (run.calls[i].AddMembers? ==> run.calls[i] == AddMembers(ChannelType, SupportChannel, [AdminId]))
  {
  }

  // ---------------------------------------------------------------------------------------
  // Scenarios

  /** Ann Lee logs in and every call returns: the identity and channel are `annlee`. */
  lemma AnnLeeLogsIn(key: string)
    ensures var service: Service := (h: seq<Call>, c: Call) => Done("tok");
            CustomerLogin(CustomerRequest(Text("Ann"), Text("Lee"), Text("a@b.com")), key, service, []).response
            == Response(200, CustomerCredentials("annlee", "annlee", "tok", key))
  {
    var service: Service := (h: seq<Call>, c: Call) => Done("tok");
    var plan := CustomerSteps(service, [], "Ann", "Lee");
    AnnLeeUsername("Ann", "Lee");
    PerformAllDone(service, [], plan);
  }

  /** An admin logging in as "Support Team" is named `support_team`, while the user record
      upserted is `admin`. */
  lemma SupportTeamLogsIn(key: string)
    ensures var service: Service := (h: seq<Call>, c: Call) => Done("tok");
            var run := AdminLogin(AdminRequest(Text("Support Team")), key, service, []);
            run.response == Response(200, AdminCredentials("support_team", "tok", key))
            && run.calls[1] == UpdateUser(User("admin", "admin"), "tok")
  {
    var service: Service := (h: seq<Call>, c: Call) => Done("tok");
    SupportTeamIsNormalized();
    var plan := AdminSteps(service, [], "Support Team");
    PerformAllDone(service, [], plan);
  }

  /** An admin logging in as "Jane Doe" is named `jane_doe`, while the user record upserted
      is `admin`. */
  lemma JaneDoeIsStoredAsAdmin(key: string)
    ensures var service: Service := (h: seq<Call>, c: Call) => Done("tok");
            var run := AdminLogin(AdminRequest(Text("Jane Doe")), key, service, []);
            run.response == Response(200, AdminCredentials("jane_doe", "tok", key))
            && run.calls[1] == UpdateUser(User("admin", "admin"), "tok")
  {
    var service: Service := (h: seq<Call>, c: Call) => Done("tok");
    JaneDoeIsNormalized();
    var plan := AdminSteps(service, [], "Jane Doe");
    PerformAllDone(service, [], plan);
  }

  /** When minting the token throws, nothing else is sent and the route answers 500 with the
      error's message. */
  lemma TokenFailureStopsCustomerLogin(req: CustomerRequest, key: string, message: string)
    requires req.firstName.Text? && req.lastName.Text?
    ensures var service: Service := (h: seq<Call>, c: Call) => if c.CreateToken? then Thrown(message) else Done("tok");
            var run := CustomerLogin(req, key, service, []);
            run == Run([CreateToken(CustomerUsername(req.firstName.text, req.lastName.text))], Failure(message))
  {
  }

  // ---------------------------------------------------------------------------------------
  // The routes over the shared client

  /** The router module: the API key read from the environment and the one server-side client
      every request shares. */
  class Router {
    const streamApiKey: string
    const client: Client

    constructor (streamApiKey: string, service: Service)
      ensures this.streamApiKey == streamApiKey
      ensures fresh(client) && client.service == service && client.log == []
    {
      this.streamApiKey := streamApiKey;
      client := new Client(service);
    }

    /** `POST /customer-login`: sends what `CustomerLogin` says, in order, and answers with
        its response. */
    method CustomerLoginRoute(req: CustomerRequest) returns (res: Response)
      modifies client
      ensures client.log == old(client.log) + CustomerLogin(req, streamApiKey, client.service, old(client.log)).calls
      ensures res == CustomerLogin(req, streamApiKey, client.service, old(client.log)).response
    {
      if req.firstName.NotText? {
        return Failure(req.firstName.typeError);
      }
      var firstName := ReplaceWhitespace(req.firstName.text);
      if req.lastName.NotText? {
        return Failure(req.lastName.typeError);
      }
      var lastName := ReplaceWhitespace(req.lastName.text);
      var username := ToLower(firstName + lastName);
      res := ProvisionCustomer(username, firstName);
    }

    /** The `try` block of `POST /customer-login` once the identity is known: each call is
        awaited in turn, the first one that throws ends the block with a 500, and a 200 with
        the credentials follows only when all of them have returned. */
    method ProvisionCustomer(username: string, firstName: string) returns (res: Response)
      modifies client
      ensures var plan := CustomerPlan(username, firstName, IssuedToken(client.service, old(client.log), username));
              var e := Perform(client.service, old(client.log), plan);
              && client.log == old(client.log) + e.sent
              && res == Conclude(e, CustomerCredentials(username, username,
                                    IssuedToken(client.service, old(client.log), username), streamApiKey))
    {
      ghost var service, history := client.service, client.log;
      ghost var plan := CustomerPlan(username, firstName, IssuedToken(service, history, username));
      assert history + plan[..0] == history;

      var answer := client.Send(CreateToken(username));
      assert Answer(service, history, plan, 0) == answer;
      if answer.Thrown? {
        PerformStopsAt(service, history, plan, 0);
        return Failure(answer.message);
      }
      var customerToken := answer.value;
      assert client.log == history + plan[..1];

      answer := client.Send(UpdateUser(User(username, firstName), customerToken));
      assert Answer(service, history, plan, 1) == answer;
      if answer.Thrown? {
        PerformStopsAt(service, history, plan, 1);
        return Failure(answer.message);
      }
      assert client.log == history + plan[..2];

      var members := [username, AdminId];
      answer := client.Send(OpenChannel(ChannelType, username, ChannelData("Chat with " + username, AdminId, Some(members))));
      assert Answer(service, history, plan, 2) == answer;
      if answer.Thrown? {
        PerformStopsAt(service, history, plan, 2);
        return Failure(answer.message);
      }
      assert client.log == history + plan[..3];

      answer := client.Send(CreateChannel(ChannelType, username));
      assert Answer(service, history, plan, 3) == answer;
      if answer.Thrown? {
        PerformStopsAt(service, history, plan, 3);
        return Failure(answer.message);
      }
      assert client.log == history + plan[..4];

      answer := client.Send(AddMembers(ChannelType, username, members));
      assert Answer(service, history, plan, 4) == answer;
      if answer.Thrown? {
        PerformStopsAt(service, history, plan, 4);
        return Failure(answer.message);
      }
      assert client.log == history + plan;

      PerformAllDone(service, history, plan);
      res := Response(200, CustomerCredentials(username, username, customerToken, streamApiKey));
    }

    /** `POST /admin-login`: sends what `AdminLogin` says, in order, and answers with its
        response. */
    method AdminLoginRoute(req: AdminRequest) returns (res: Response)
      modifies client
      ensures client.log == old(client.log) + AdminLogin(req, streamApiKey, client.service, old(client.log)).calls
      ensures res == AdminLogin(req, streamApiKey, client.service, old(client.log)).response
    {
      if req.adminId.NotText? {
        return Failure(req.adminId.typeError);
      }
      var username := ToLower(ReplaceWhitespace(req.adminId.text));
      res := ProvisionAdmin(username);
    }

    /** The `try` block of `POST /admin-login` once the identity is known. */
    method ProvisionAdmin(username: string) returns (res: Response)
      modifies client
      ensures var plan := AdminPlan(username, IssuedToken(client.service, old(client.log), username));
              var e := Perform(client.service, old(client.log), plan);
              && client.log == old(client.log) + e.sent
              && res == Conclude(e, AdminCredentials(username,
                                    IssuedToken(client.service, old(client.log), username), streamApiKey))
    {
      ghost var service, history := client.service, client.log;
      ghost var plan := AdminPlan(username, IssuedToken(service, history, username));
      assert history + plan[..0] == history;

      var answer := client.Send(CreateToken(username));
      assert Answer(service, history, plan, 0) == answer;
      if answer.Thrown? {
        PerformStopsAt(service, history, plan, 0);
        return Failure(answer.message);
      }
      var adminToken := answer.value;
      assert client.log == history + plan[..1];

      answer := client.Send(UpdateUser(User(AdminId, AdminId), adminToken));
      assert Answer(service, history, plan, 1) == answer;
      if answer.Thrown? {
        PerformStopsAt(service, history, plan, 1);
        return Failure(answer.message);
      }
      assert client.log == history + plan[..2];

      answer := client.Send(OpenChannel(ChannelType, SupportChannel, ChannelData(SupportChannelName, AdminId, None)));
      assert Answer(service, history, plan, 2) == answer;
      if answer.Thrown? {
        PerformStopsAt(service, history, plan, 2);
        return Failure(answer.message);
      }
      assert client.log == history + plan[..3];

      answer := client.Send(CreateChannel(ChannelType, SupportChannel));
      assert Answer(service, history, plan, 3) == answer;
      if answer.Thrown? {
        PerformStopsAt(service, history, plan, 3);
        return Failure(answer.message);
      }
      assert client.log == history + plan[..4];

      answer := client.Send(AddMembers(ChannelType, SupportChannel, [AdminId]));
      assert Answer(service, history, plan, 4) == answer;
      if answer.Thrown? {
        PerformStopsAt(service, history, plan, 4);
        return Failure(answer.message);
      }
      assert client.log == history + plan;

      PerformAllDone(service, history, plan);
      res := Response(200, AdminCredentials(username, adminToken, streamApiKey));
    }
  }
}

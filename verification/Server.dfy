/**
 * One client connection: handshake, authentication, then requests dispatched to the vault.
 *
 * Parsing JSON and authenticating a token are functions given from outside; the clock, fresh
 * identifiers and whether a response can be written are given for every request.
 */
module Server {
  import opened Types
  import opened Identity
  import opened Policy
  import opened Leases
  import opened Store
  import opened VaultModel
  import opened VaultObject
  import opened Frames

  const PROTOCOL_NAME: string := "zerolease"
  const CURRENT_VERSION: nat := 1

  datatype Role = Admin | Agent | Orchestrator

  /** Who a connection is; the label is only shown. */
  datatype Caller = Caller(role: Role, agentId: Option<AgentId>)

  datatype Hello = Hello(protocol: string, version: nat, token: Option<string>)

  /** Parameters as parsed; a field that is decoded later may have failed to decode. */
  datatype Params =
    | StoreParams(name: SecretName, plaintext: Option<Bytes>, kind: Option<SecretKind>, description: Option<string>)
    | LeaseParams(agent: string, secret: SecretName, domain: string)
    | AccessParams(lease: LeaseId, target: string)
    | RevokeParams(lease: LeaseId, reason: Option<RevocationReason>)
    | AgentParams(agent: string)
    | RenewParams(lease: LeaseId, extensionSecs: int)
    | DeleteParams(name: SecretName)
    | OtherParams

  datatype Request = Request(id: nat, name: string, params: Params)

  datatype Codec = Codec(hello: Bytes -> Option<Hello>, request: Bytes -> Option<Request>)

  type Authenticator = Option<string> -> Option<Caller>

  /** What the world contributes to one request. */
  datatype Turn = Turn(env: Env, leaseId: LeaseId, secretId: SecretId, nonce: Bytes, written: bool)

  datatype Body =
    | Denied | Invalid | VaultError(error: Error) | Done
    | Stored(secret: SecretMetadata)
    | Granted(grant: LeaseGrant)
    | Secret(value: Bytes)
    | Revoked(count: nat)
    | Listed(secrets: set<SecretMetadata>)

  datatype Reply = Accepted(version: nat) | Rejected | Answer(id: nat, body: Body)

  datatype Method =
    | MStoreSecret | MRequestLease | MAccessSecret | MRevokeLease | MRevokeAllForAgent | MListSecrets | MRenewLease
    | MDeleteSecret | MUnknown

  function MethodOf(name: string): Method {
    match name
    case "store_secret" => MStoreSecret
    case "request_lease" => MRequestLease
    case "access_secret" => MAccessSecret
    case "revoke_lease" => MRevokeLease
    case "revoke_all_for_agent" => MRevokeAllForAgent
    case "list_secrets" => MListSecrets
    case "renew_lease" => MRenewLease
    case "delete_secret" => MDeleteSecret
    case _ => MUnknown
  }

  predicate AdminMethod(m: Method) {
    m.MStoreSecret? || m.MDeleteSecret? || m.MListSecrets?
  }

  /** The agent a request acts for. */
  function Resolve(who: Caller, requested: string): AgentId {
    if who.role.Agent? && who.agentId.Some? then who.agentId.value else requested
  }

  // ---- Dispatch ----

  /** The vault operation a request leads to, if it leads to one. */
  function OpOf(who: Caller, req: Request, t: Turn): Option<Op> {
    if AdminMethod(MethodOf(req.name)) && !who.role.Admin? then None
    else match req.params
      case StoreParams(name, plaintext, kind, description) =>
        if MethodOf(req.name).MStoreSecret? && plaintext.Some? && kind.Some?
        then Some(OpStore(name, plaintext.value, kind.value, description, t.secretId, t.nonce, t.env)) else None
      case LeaseParams(agent, secret, domain) =>
        if MethodOf(req.name).MRequestLease?
        then Some(OpRequest(Resolve(who, agent), secret, domain, t.leaseId, t.env)) else None
      case AccessParams(lease, target) =>
        if MethodOf(req.name).MAccessSecret? then Some(OpAccess(lease, target, t.env)) else None
      case RevokeParams(lease, reason) =>
        if MethodOf(req.name).MRevokeLease? && reason.Some? then Some(OpRevoke(lease, reason.value, t.env)) else None
      case AgentParams(agent) =>
        if MethodOf(req.name).MRevokeAllForAgent? then Some(OpRevokeAll(Resolve(who, agent), t.env)) else None
      case RenewParams(lease, ext) =>
        if MethodOf(req.name).MRenewLease? then Some(OpRenew(lease, ext, t.env)) else None
      case DeleteParams(name) =>
        if MethodOf(req.name).MDeleteSecret? then Some(OpDelete(name, t.env)) else None
      case OtherParams => None
  }

  function GrantBody(r: Result<LeaseGrant>): Body {
    match r case Ok(grant) => Granted(grant) case Err(e) => VaultError(e)
  }

  function DoneBody(r: Result<()>): Body {
    match r case Ok(_) => Done case Err(e) => VaultError(e)
  }

  /** What the client is told about an operation carried out in state `s`. */
  ghost function BodyOf(c: Config, s: State, op: Op): Body {
    match op
    case OpStore(name, plaintext, kind, description, sid, nonce, env) =>
      (match StoreSecret(c, s, name, plaintext, kind, description, sid, nonce, env).1
       case Ok(row) => Stored(MetadataOf(name, row))
       case Err(e) => VaultError(e))
    case OpRequest(agent, name, domain, id, env) => GrantBody(RequestLease(c, s, agent, name, domain, id, env).1)
    case OpAccess(id, target, env) =>
      (match AccessSecret(c, s, id, target, env).1 case Ok(g) => Secret(g.value) case Err(e) => VaultError(e))
    case OpRevoke(id, reason, env) => DoneBody(RevokeLease(s, id, reason, env).1)
    case OpRevokeAll(agent, env) =>
      (match RevokeAllForAgent(s, agent, env).1 case Ok(n) => Revoked(n) case Err(e) => VaultError(e))
    case OpRenew(id, ext, env) => GrantBody(RenewLease(s, id, ext, env).1)
    case OpDelete(name, env) => DoneBody(DeleteSecret(s, name, env).1)
    case _ => Invalid
  }

  function MetadataIn(t: Table): set<SecretMetadata> {
    set n | n in t :: MetadataOf(n, t[n])
  }

  ghost function Answered(c: Config, s: State, who: Caller, req: Request, t: Turn): Body {
    if AdminMethod(MethodOf(req.name)) && !who.role.Admin? then Denied
    else if MethodOf(req.name).MListSecrets? then
      (if t.env.storeOk then Listed(MetadataIn(s.store)) else VaultError(Storage))
    else match OpOf(who, req, t) case None => Invalid case Some(op) => BodyOf(c, s, op)
  }

  ghost function Moved(c: Config, s: State, who: Caller, req: Request, t: Turn): State {
    match OpOf(who, req, t) case None => s case Some(op) => Apply(c, s, op)
  }

  // ---- What the wire names mean ----

  const NAMES: set<string> :=
    {"store_secret", "delete_secret", "list_secrets", "request_lease", "access_secret", "revoke_lease",
     "revoke_all_for_agent", "renew_lease"}

  /** The request is refused as it stands. */
  predicate Refused(s: State, s': State, body: Body) {
    s' == s && body == Invalid
  }

  /** The agent a connection acts for: the one it is bound to, if it is an agent's, or else the one it names. */
  ghost predicate ActsFor(who: Caller, requested: string, agent: AgentId) {
    if who.role == Agent && who.agentId.Some? then Some(agent) == who.agentId else agent == requested
  }

  /** Reserved names: refused to everybody but administrators, without a trace in the vault. */
  ghost predicate HandlesReserved(c: Config, s: State, who: Caller, req: Request, t: Turn, s': State, body: Body) {
    && (who.role != Admin && req.name in {"store_secret", "delete_secret", "list_secrets"} ==>
          s' == s && body == Denied)
    && (who.role == Admin && req.name == "store_secret" ==>
          match req.params
          case StoreParams(name, Some(plaintext), Some(kind), description) =>
            var (end, r) := StoreSecret(c, s, name, plaintext, kind, description, t.secretId, t.nonce, t.env);
            && s' == end
            && body == (match r case Ok(row) => Stored(MetadataOf(name, row)) case Err(e) => VaultError(e))
          case _ => Refused(s, s', body))
    && (who.role == Admin && req.name == "delete_secret" ==>
          match req.params
          case DeleteParams(name) =>
            var (end, r) := DeleteSecret(s, name, t.env);
            s' == end && body == (match r case Ok(_) => Done case Err(e) => VaultError(e))
          case _ => Refused(s, s', body))
    && (who.role == Admin && req.name == "list_secrets" ==>
          && s' == s
          && (!t.env.storeOk ==> body == VaultError(Storage))
          && (t.env.storeOk ==>
                && body.Listed?
                && forall m :: m in body.secrets <==> exists n | n in s.store :: m == MetadataOf(n, s.store[n])))
  }

  /** Requests and accesses. */
  ghost predicate HandlesLeases(c: Config, s: State, who: Caller, req: Request, t: Turn, s': State, body: Body) {
    && (req.name == "request_lease" ==>
          match req.params
          case LeaseParams(requested, secret, domain) =>
            (forall agent | ActsFor(who, requested, agent) ::
               var (end, r) := RequestLease(c, s, agent, secret, domain, t.leaseId, t.env);
               s' == end && body == (match r case Ok(grant) => Granted(grant) case Err(e) => VaultError(e)))
          case _ => Refused(s, s', body))
    && (req.name == "access_secret" ==>
          match req.params
          case AccessParams(lease, target) =>
            var (end, r) := AccessSecret(c, s, lease, target, t.env);
            s' == end && body == (match r case Ok(guard) => Secret(guard.value) case Err(e) => VaultError(e))
          case _ => Refused(s, s', body))
  }

  /** Revocations and renewals, and names that are none. */
  ghost predicate HandlesOthers(c: Config, s: State, who: Caller, req: Request, t: Turn, s': State, body: Body) {
    && (req.name == "revoke_lease" ==>
          match req.params
          case RevokeParams(lease, Some(reason)) =>
            var (end, r) := RevokeLease(s, lease, reason, t.env);
            s' == end && body == (match r case Ok(_) => Done case Err(e) => VaultError(e))
          case _ => Refused(s, s', body))
    && (req.name == "revoke_all_for_agent" ==>
          match req.params
          case AgentParams(requested) =>
            (forall agent | ActsFor(who, requested, agent) ::
               var (end, r) := RevokeAllForAgent(s, agent, t.env);
               s' == end && body == (match r case Ok(n) => Revoked(n) case Err(e) => VaultError(e)))
          case _ => Refused(s, s', body))
    && (req.name == "renew_lease" ==>
          match req.params
          case RenewParams(lease, ext) =>
            var (end, r) := RenewLease(s, lease, ext, t.env);
            s' == end && body == (match r case Ok(grant) => Granted(grant) case Err(e) => VaultError(e))
          case _ => Refused(s, s', body))
    && (req.name !in NAMES ==> Refused(s, s', body))
  }

  ghost predicate Handles(c: Config, s: State, who: Caller, req: Request, t: Turn, s': State, body: Body) {
    && HandlesReserved(c, s, who, req, t, s', body) && HandlesLeases(c, s, who, req, t, s', body)
    && HandlesOthers(c, s, who, req, t, s', body)
  }

  /** The names tell the methods apart. */
  lemma NamesMean(name: string)
    ensures MethodOf(name) == MStoreSecret <==> name == "store_secret"
    ensures MethodOf(name) == MDeleteSecret <==> name == "delete_secret"
    ensures MethodOf(name) == MListSecrets <==> name == "list_secrets"
    ensures MethodOf(name) == MRequestLease <==> name == "request_lease"
    ensures MethodOf(name) == MAccessSecret <==> name == "access_secret"
    ensures MethodOf(name) == MRevokeLease <==> name == "revoke_lease"
    ensures MethodOf(name) == MRevokeAllForAgent <==> name == "revoke_all_for_agent"
    ensures MethodOf(name) == MRenewLease <==> name == "renew_lease"
    ensures MethodOf(name) == MUnknown <==> name !in NAMES
  {
  }

  /** Every request is handled as its wire name says. */
  lemma DispatchMeaning(c: Config, s: State, who: Caller, req: Request, t: Turn)
    ensures Handles(c, s, who, req, t, Moved(c, s, who, req, t), Answered(c, s, who, req, t))
  {
    NamesMean(req.name);
    hide MethodOf, StoreSecret, DeleteSecret, RequestLease, AccessSecret, RevokeLease, RevokeAllForAgent, RenewLease;
  }

  method ListSecrets(store: SecretStore, reachable: bool) returns (body: Body)
    ensures body == if reachable then Listed(MetadataIn(store.table)) else VaultError(Storage)
  {
    var r := store.List(reachable);
    if r.Err? {
      return VaultError(r.error);
    }
    assert forall m | m in r.value :: m in MetadataIn(store.table);
    return Listed(set m | m in r.value);
  }

  /** The methods reserved for administrators. */
  method DispatchSecrets(vault: Vault, req: Request, who: Caller, t: Turn) returns (body: Body)
    requires vault.Valid() && AdminMethod(MethodOf(req.name)) && who.role.Admin?
    modifies vault, vault.store
    ensures vault.Valid()
    ensures vault.View() == Moved(vault.cfg, old(vault.View()), who, req, t)
    ensures body == Answered(vault.cfg, old(vault.View()), who, req, t)
  {
    hide MethodOf, VaultModel.StoreSecret, VaultModel.DeleteSecret;
    if MethodOf(req.name).MStoreSecret? {
      if !req.params.StoreParams? || req.params.plaintext.None? || req.params.kind.None? {
        return Invalid;
      }
      var p := req.params;
      var r := vault.StoreSecret(p.name, p.plaintext.value, p.kind.value, p.description, t.secretId, t.nonce, t.env);
      return if r.Ok? then Stored(MetadataOf(p.name, r.value)) else VaultError(r.error);
    } else if MethodOf(req.name).MListSecrets? {
      body := ListSecrets(vault.store, t.env.storeOk);
    } else {
      if !req.params.DeleteParams? {
        return Invalid;
      }
      var r := vault.DeleteSecret(req.params.name, t.env);
      return DoneBody(r);
    }
  }

  /** The methods that revoke or renew leases. */
  method DispatchLifecycle(vault: Vault, req: Request, who: Caller, t: Turn) returns (body: Body)
    requires vault.Valid() && !AdminMethod(MethodOf(req.name))
    requires req.params.RevokeParams? || req.params.AgentParams? || req.params.RenewParams?
    modifies vault, vault.store
    ensures vault.Valid()
    ensures vault.View() == Moved(vault.cfg, old(vault.View()), who, req, t)
    ensures body == Answered(vault.cfg, old(vault.View()), who, req, t)
  {
    hide MethodOf, VaultModel.RevokeLease, VaultModel.RevokeAllForAgent, VaultModel.RenewLease;
    body := Invalid;
    match req.params
    case RevokeParams(lease, reason) =>
      if MethodOf(req.name).MRevokeLease? && reason.Some? {
        var r := vault.RevokeLease(lease, reason.value, t.env);
        return DoneBody(r);
      }
    case AgentParams(agent) =>
      if MethodOf(req.name).MRevokeAllForAgent? {
        var r := vault.RevokeAllForAgent(Resolve(who, agent), t.env);
        return if r.Ok? then Revoked(r.value) else VaultError(r.error);
      }
    case RenewParams(lease, ext) =>
      if MethodOf(req.name).MRenewLease? {
        var r := vault.RenewLease(lease, ext, t.env);
        return GrantBody(r);
      }
  }

  method Dispatch(vault: Vault, req: Request, who: Caller, t: Turn) returns (body: Body)
    requires vault.Valid()
    modifies vault, vault.store
    ensures vault.Valid()
    ensures vault.View() == Moved(vault.cfg, old(vault.View()), who, req, t)
    ensures body == Answered(vault.cfg, old(vault.View()), who, req, t)
    ensures Handles(vault.cfg, old(vault.View()), who, req, t, vault.View(), body)
  {
    DispatchMeaning(vault.cfg, vault.View(), who, req, t);
    hide MethodOf, VaultModel.RequestLease, VaultModel.AccessSecret, Handles;
    body := Invalid;
    if AdminMethod(MethodOf(req.name)) {
      if who.role != Admin {
        return Denied;
      }
      body := DispatchSecrets(vault, req, who, t);
      return;
    }
    match req.params
    case LeaseParams(agent, secret, domain) =>
      if MethodOf(req.name).MRequestLease? {
        var r := vault.RequestLease(Resolve(who, agent), secret, domain, t.leaseId, t.env);
        return GrantBody(r);
      }
    case AccessParams(lease, target) =>
      if MethodOf(req.name).MAccessSecret? {
        var r := vault.AccessSecret(lease, target, t.env);
        return if r.Ok? then Secret(r.value.value) else VaultError(r.error);
      }
    case RevokeParams(_, _) => body := DispatchLifecycle(vault, req, who, t);
    case AgentParams(_) => body := DispatchLifecycle(vault, req, who, t);
    case RenewParams(_, _) => body := DispatchLifecycle(vault, req, who, t);
    case _ =>
  }

  // ---- Connections ----

  /**
   * What a peer may do after its first frame: nothing, or be served as somebody.  `greeted` says
   * whether the reply to the frame can be written.
   */
  function Admit(codec: Codec, auth: Authenticator, first: Bytes, greeted: bool): (seq<Reply>, Option<Caller>) {
    match codec.hello(first)
    case None => ([], None)
    case Some(hello) =>
      if hello.protocol != PROTOCOL_NAME || hello.version > CURRENT_VERSION then ([Rejected], None)
      else ([Accepted(hello.version)], if greeted then auth(hello.token) else None)
  }

  /** The vault operations of the request frames, in order; `turns` gives the world for each frame. */
  ghost function OpsOf(codec: Codec, who: Caller, frames: seq<Bytes>, turns: nat -> Turn): seq<Op> {
    if frames == [] then []
    else
      var n := |frames| - 1;
      var before := OpsOf(codec, who, frames[..n], turns);
      match codec.request(frames[n])
      case None => before
      case Some(req) => (match OpOf(who, req, turns(n)) case None => before case Some(op) => before + [op])
  }

  /** The answers to the request frames, the vault being in state `s` at first. */
  ghost function AnswersOf(c: Config, s: State, codec: Codec, who: Caller, frames: seq<Bytes>,
                           turns: nat -> Turn): seq<Reply> {
    if frames == [] then []
    else
      var n := |frames| - 1;
      AnswersOf(c, s, codec, who, frames[..n], turns) +
      [match codec.request(frames[n])
       case None => Answer(0, Invalid)
       case Some(req) =>
         var before := Run(c, s, OpsOf(codec, who, frames[..n], turns));
         Answer(req.id, Answered(c, before, who, req, turns(n)))]
  }

  /** How many of the frames are served: up to the first response that cannot be written. */
  ghost predicate Served(codec: Codec, frames: seq<Bytes>, turns: nat -> Turn, k: nat) {
    && k <= |frames|
    && (forall i | 0 <= i < k - 1 :: codec.request(frames[i]).Some? ==> turns(i).written)
    && (k < |frames| ==> k > 0 && codec.request(frames[k - 1]).Some? && !turns(k - 1).written)
  }

  /** An oversized frame is answered before the connection closes; the end of the stream is not. */
  ghost function Parting(codec: Codec, frames: seq<Bytes>, turns: nat -> Turn, k: nat, e: FrameError): seq<Reply>
    requires k <= |frames|
  {
    if k == |frames| && e.TooLarge? && (k == 0 || codec.request(frames[k - 1]).None? || turns(k - 1).written)
    then [Answer(0, Invalid)] else []
  }

  lemma ServeOne(c: Config, s: State, codec: Codec, who: Caller, frames: seq<Bytes>, turns: nat -> Turn)
    requires frames != []
    ensures var n := |frames| - 1;
      Run(c, s, OpsOf(codec, who, frames, turns)) ==
        match codec.request(frames[n])
        case None => Run(c, s, OpsOf(codec, who, frames[..n], turns))
        case Some(req) => Moved(c, Run(c, s, OpsOf(codec, who, frames[..n], turns)), who, req, turns(n))
  {
    hide Apply, OpOf;
    var n := |frames| - 1;
    var ops := OpsOf(codec, who, frames[..n], turns);
    if codec.request(frames[n]).Some? {
      match OpOf(who, codec.request(frames[n]).value, turns(n))
      case None =>
      case Some(op) => assert (ops + [op])[..|ops|] == ops;
    }
  }

  ghost function ReplyTo(c: Config, s: State, codec: Codec, who: Caller, frame: Bytes, t: Turn): Reply {
    match codec.request(frame)
    case None => Answer(0, Invalid)
    case Some(req) => Answer(req.id, Answered(c, s, who, req, t))
  }

  ghost function After(c: Config, s: State, codec: Codec, who: Caller, frame: Bytes, t: Turn): State {
    match codec.request(frame) case None => s case Some(req) => Moved(c, s, who, req, t)
  }

  /** One frame: parse, dispatch, respond.  The connection ends if the response cannot be written. */
  method ServeFrame(vault: Vault, codec: Codec, who: Caller, frame: Bytes, t: Turn) returns (reply: Reply, stop: bool)
    requires vault.Valid()
    modifies vault, vault.store
    ensures vault.Valid() && stop == (codec.request(frame).Some? && !t.written)
    ensures reply == ReplyTo(vault.cfg, old(vault.View()), codec, who, frame, t)
    ensures vault.View() == After(vault.cfg, old(vault.View()), codec, who, frame, t)
  {
    hide Moved, Answered;
    match codec.request(frame)
    case None => return Answer(0, Invalid), false;
    case Some(req) =>
      var body := Dispatch(vault, req, who, t);
      return Answer(req.id, body), !t.written;
  }

  /** A reply that shows nothing of the stored secrets' metadata. */
  predicate Discreet(reply: Reply) {
    reply.Answer? ==> !reply.body.Listed? && !reply.body.Stored?
  }

  /** The reply answers the frame: under the id of its request, or under the nil id if it does not parse. */
  predicate Replies(codec: Codec, frame: Bytes, reply: Reply) {
    && reply.Answer?
    && match codec.request(frame)
       case Some(req) => reply.id == req.id
       case None => reply.id == 0 && reply.body == Invalid
  }

  lemma DiscreetAnswer(c: Config, s: State, who: Caller, req: Request, t: Turn)
    requires who.role != Admin
    ensures var body := Answered(c, s, who, req, t); !body.Listed? && !body.Stored?
  {
    hide MethodOf, RequestLease, AccessSecret, RevokeLease, RevokeAllForAgent, RenewLease;
  }

  /** One answer for each frame, in order; to somebody who is no administrator, none that shows metadata. */
  lemma {:induction false} AnswersMeaning(c: Config, s: State, codec: Codec, who: Caller, frames: seq<Bytes>,
                                          turns: nat -> Turn)
    ensures var replies := AnswersOf(c, s, codec, who, frames, turns);
      && |replies| == |frames|
      && (forall i | 0 <= i < |frames| :: Replies(codec, frames[i], replies[i]))
      && (who.role != Admin ==> forall i | 0 <= i < |frames| :: Discreet(replies[i]))
  {
    hide Answered, Run, OpsOf;
    if frames != [] {
      var n := |frames| - 1;
      AnswersMeaning(c, s, codec, who, frames[..n], turns);
      if codec.request(frames[n]).Some? && who.role != Admin {
        var before := Run(c, s, OpsOf(codec, who, frames[..n], turns));
        DiscreetAnswer(c, before, who, codec.request(frames[n]).value, turns(n));
      }
    }
  }

  /**
   * What a served stream of frames gets: an answer for each frame served, in order, and one more at
   * most; all frames are served if every answer can be written.
   */
  ghost predicate WellServed(codec: Codec, who: Caller, frames: seq<Bytes>, turns: nat -> Turn, e: FrameError,
                             replies: seq<Reply>, k: nat) {
    && k <= |frames| && k <= |replies|
    && (forall i | 0 <= i < k :: Replies(codec, frames[i], replies[i]))
    && (who.role != Admin ==> forall i | 0 <= i < |replies| :: Discreet(replies[i]))
    && ((forall i | 0 <= i < |frames| :: turns(i).written) ==>
          k == |frames| && replies[k..] == if e.TooLarge? then [Answer(0, Invalid)] else [])
  }

  lemma ServedWell(c: Config, s: State, codec: Codec, who: Caller, frames: seq<Bytes>, turns: nat -> Turn,
                   e: FrameError, k: nat)
    requires Served(codec, frames, turns, k)
    ensures WellServed(codec, who, frames, turns, e,
                       AnswersOf(c, s, codec, who, frames[..k], turns) + Parting(codec, frames, turns, k, e), k)
  {
    AnswersMeaning(c, s, codec, who, frames[..k], turns);
    hide AnswersOf;
    var answers, last := AnswersOf(c, s, codec, who, frames[..k], turns), Parting(codec, frames, turns, k, e);
    assert (answers + last)[k..] == last;
    forall i | 0 <= i < k ensures Replies(codec, frames[i], (answers + last)[i]) {
      assert frames[..k][i] == frames[i];
    }
  }

  /** The request loop. */
  method ServeRequests(vault: Vault, reader: Reader, codec: Codec, who: Caller, turns: nat -> Turn)
    returns (replies: seq<Reply>, ghost k: nat)
    requires vault.Valid()
    modifies vault, vault.store, reader
    ensures vault.Valid()
    ensures var (frames, e) := DecodeAll(old(reader.ahead));
      && Served(codec, frames, turns, k)
      && vault.View() == Run(vault.cfg, old(vault.View()), OpsOf(codec, who, frames[..k], turns))
      && replies == AnswersOf(vault.cfg, old(vault.View()), codec, who, frames[..k], turns)
                    + Parting(codec, frames, turns, k, e)
      && WellServed(codec, who, frames, turns, e, replies, k)
  {
    ghost var s, frames, c := vault.View(), DecodeAll(reader.ahead).0, vault.cfg;
    ghost var e := DecodeAll(reader.ahead).1;
    var i := 0;
    replies, k := [], 0;
    assert OpsOf(codec, who, [], turns) == [] && Run(c, s, []) == s && AnswersOf(c, s, codec, who, [], turns) == [];
    hide Decode, OpsOf, AnswersOf, After, ReplyTo, Run, WellServed;
    while true
      invariant vault.Valid() && i == k <= |frames| && DecodeAll(reader.ahead) == (frames[k..], e)
      invariant forall i | 0 <= i < k :: codec.request(frames[i]).Some? ==> turns(i).written
      invariant vault.View() == Run(c, s, OpsOf(codec, who, frames[..k], turns))
      invariant replies == AnswersOf(c, s, codec, who, frames[..k], turns)
      decreases |reader.ahead|
    {
      ghost var ahead := reader.ahead;
      var r := reader.ReadFrame();
      if r.Failed? {
        if r.error.TooLarge? {
          replies := replies + [Answer(0, Invalid)];
        } else {
          assert replies + [] == replies;
        }
        ServedWell(c, s, codec, who, frames, turns, e, k);
        return;
      }
      NextFrame(ahead, frames, k, e);
      var reply, stop := ServeFrame(vault, codec, who, r.payload, turns(i));
      ServeOneMore(c, s, codec, who, frames, turns, k);
      i, k, replies := i + 1, k + 1, replies + [reply];
      if stop {
        assert replies + [] == replies;
        ServedWell(c, s, codec, who, frames, turns, e, k);
        return;
      }
    }
  }

  lemma NextFrame(ahead: Bytes, frames: seq<Bytes>, k: nat, e: FrameError)
    requires k <= |frames| && DecodeAll(ahead) == (frames[k..], e) && Decode(ahead).0.Frame?
    ensures k < |frames| && frames[k] == Decode(ahead).0.payload
    ensures DecodeAll(Decode(ahead).1) == (frames[k + 1..], e) && |Decode(ahead).1| < |ahead|
  {
    FrameAhead(ahead);
    hide Decode;
    var payload, rest := Decode(ahead).0.payload, Decode(ahead).1;
    assert DecodeAll(ahead).0 == [payload] + DecodeAll(rest).0;
    assert |frames[k..]| > 0 && frames[k..][0] == payload && frames[k..][1..] == DecodeAll(rest).0;
    assert frames[k..][0] == frames[k] && frames[k..][1..] == frames[k + 1..];
  }

  lemma ServeOneMore(c: Config, s: State, codec: Codec, who: Caller, frames: seq<Bytes>, turns: nat -> Turn, k: nat)
    requires k < |frames|
    ensures var before := Run(c, s, OpsOf(codec, who, frames[..k], turns));
      && Run(c, s, OpsOf(codec, who, frames[..k + 1], turns)) == After(c, before, codec, who, frames[k], turns(k))
      && AnswersOf(c, s, codec, who, frames[..k + 1], turns)
         == AnswersOf(c, s, codec, who, frames[..k], turns) + [ReplyTo(c, before, codec, who, frames[k], turns(k))]
  {
    hide Moved, Answered, Run;
    assert frames[..k + 1][..k] == frames[..k];
    ServeOne(c, s, codec, who, frames[..k + 1], turns);
  }

  /**
   * A whole connection, from its first frame to its end.  `who` is whoever was authenticated and
   * `k` the number of request frames served.
   */
  method HandleConnection(vault: Vault, reader: Reader, codec: Codec, auth: Authenticator, greeted: bool,
                          turns: nat -> Turn)
    returns (replies: seq<Reply>, ghost who: Option<Caller>, ghost k: nat)
    requires vault.Valid()
    modifies vault, vault.store, reader
    ensures vault.Valid()
    ensures var (frames, e) := DecodeAll(old(reader.ahead));
      if frames == [] then who.None? && replies == [] && vault.View() == old(vault.View())
      else
        var (greeting, caller) := Admit(codec, auth, frames[0], greeted);
        && who == caller
        && (who.Some? <==>
              && codec.hello(frames[0]).Some? && var hello := codec.hello(frames[0]).value;
              && hello.protocol == "zerolease" && hello.version <= 1 && greeted && auth(hello.token).Some?)
        && (who.Some? ==>
              && who == auth(codec.hello(frames[0]).value.token) && |replies| > 0
              && replies[0] == Accepted(codec.hello(frames[0]).value.version)
              && WellServed(codec, who.value, frames[1..], turns, e, replies[1..], k))
        && (who.None? ==> replies == greeting && vault.View() == old(vault.View()))
        && (who.Some? ==>
              && Served(codec, frames[1..], turns, k)
              && vault.View() == Run(vault.cfg, old(vault.View()), OpsOf(codec, who.value, frames[1..][..k], turns))
              && replies
                 == greeting
                    + AnswersOf(vault.cfg, old(vault.View()), codec, who.value, frames[1..][..k], turns)
                    + Parting(codec, frames[1..], turns, k, e))
  {
    hide Decode, OpsOf, AnswersOf, Run, Served, Parting, WellServed;
    ghost var ahead, frames := reader.ahead, DecodeAll(reader.ahead).0;
    replies, who, k := [], None, 0;
    var first := reader.ReadFrame();
    if first.Failed? {
      return;
    }
    NextFrame(ahead, frames, 0, DecodeAll(ahead).1);
    var hello := codec.hello(first.payload);
    if hello.None? {
      return;
    }
    if hello.value.protocol != PROTOCOL_NAME {
      return [Rejected], None, 0;
    }
    if hello.value.version > CURRENT_VERSION {
      return [Rejected], None, 0;
    }
    replies := [Accepted(hello.value.version)];
    if !greeted {
      return;
    }
    var caller := auth(hello.value.token);
    who := caller;
    if caller.None? {
      return;
    }
    var answers;
    answers, k := ServeRequests(vault, reader, codec, caller.value, turns);
    replies := replies + answers;
    assert replies[1..] == answers;
  }

  // ---- Confinement ----

  /** What a caller's role leaves it. */
  ghost predicate Confined(who: Caller, op: Op) {
    !who.role.Admin? ==>
      && (op.OpRequest? || op.OpAccess? || op.OpRevoke? || op.OpRevokeAll? || op.OpRenew?)
      && (who.role.Agent? && who.agentId.Some? ==>
            (op.OpRequest? ==> op.agent == who.agentId.value) && (op.OpRevokeAll? ==> op.agent == who.agentId.value))
  }

  ghost predicate AllConfined(who: Caller, ops: seq<Op>) {
    forall i | 0 <= i < |ops| :: Confined(who, ops[i])
  }

  lemma OpConfined(who: Caller, req: Request, t: Turn)
    requires OpOf(who, req, t).Some?
    ensures Confined(who, OpOf(who, req, t).value)
  {
    hide MethodOf;
  }

  /** Whatever frames a connection sends, every operation it leads to stays within its role. */
  lemma {:induction false} OpsConfined(codec: Codec, who: Caller, frames: seq<Bytes>, turns: nat -> Turn)
    ensures AllConfined(who, OpsOf(codec, who, frames, turns))
  {
    hide OpOf, Confined;
    if frames != [] {
      var n := |frames| - 1;
      OpsConfined(codec, who, frames[..n], turns);
      if codec.request(frames[n]).Some? && OpOf(who, codec.request(frames[n]).value, turns(n)).Some? {
        OpConfined(who, codec.request(frames[n]).value, turns(n));
      }
    }
  }

  /** Secrets, keys and sessions as before; leases kept with their agents; at most lease `added` is new. */
  ghost predicate Keeps(s: State, s': State, added: Option<(LeaseId, AgentId)>) {
    && s'.store == s.store && s'.dek == s.dek && s'.persisted == s.persisted && s'.sessions == s.sessions
    && (forall id | id in s.leases && !(added.Some? && added.value.0 == id) ::
          id in s'.leases && s'.leases[id].agent == s.leases[id].agent)
    && (forall id | id in s'.leases && id !in s.leases ::
          added.Some? && added.value.0 == id && s'.leases[id].agent == added.value.1)
  }

  lemma RequestKeeps(c: Config, s: State, agent: AgentId, name: SecretName, domain: DomainScope, id: LeaseId, env: Env)
    ensures Keeps(s, RequestLease(c, s, agent, name, domain, id, env).0, Some((id, agent)))
  {
    hide ActiveCount, Evaluate;
  }

  lemma AccessKeeps(c: Config, s: State, id: LeaseId, target: string, env: Env)
    ensures Keeps(s, AccessSecret(c, s, id, target, env).0, None)
  {
    hide Refusal, OpenSecret;
  }

  lemma RevokeKeeps(s: State, id: LeaseId, reason: RevocationReason, env: Env)
    ensures Keeps(s, RevokeLease(s, id, reason, env).0, None)
  {
  }

  lemma RevokeAllKeeps(s: State, agent: AgentId, env: Env)
    ensures Keeps(s, RevokeAllForAgent(s, agent, env).0, None)
  {
    hide RevocationEntries, Flipped;
  }

  lemma RenewKeeps(s: State, id: LeaseId, ext: int, env: Env)
    ensures Keeps(s, RenewLease(s, id, ext, env).0, None)
  {
    hide RenewalCapped;
  }

  /** Lease operations leave everything else alone, and never change whose a lease is. */
  lemma ConfinedStep(c: Config, s: State, who: Caller, op: Op)
    requires !who.role.Admin? && Confined(who, op)
    ensures Keeps(s, Apply(c, s, op), if op.OpRequest? then Some((op.id, op.agent)) else None)
  {
    hide Keeps, RequestLease, AccessSecret, RevokeLease, RevokeAllForAgent, RenewLease;
    match op
    case OpRequest(agent, name, domain, id, env) => RequestKeeps(c, s, agent, name, domain, id, env);
    case OpAccess(id, target, env) => AccessKeeps(c, s, id, target, env);
    case OpRevoke(id, reason, env) => RevokeKeeps(s, id, reason, env);
    case OpRevokeAll(agent, env) => RevokeAllKeeps(s, agent, env);
    case OpRenew(id, ext, env) => RenewKeeps(s, id, ext, env);
    case _ =>
  }

  /** The ids of new leases are fresh. */
  ghost predicate FreshIds(c: Config, s: State, ops: seq<Op>) {
    ops == [] || (
      var n := |ops| - 1;
      && FreshIds(c, s, ops[..n])
      && (ops[n].OpRequest? ==> ops[n].id !in Run(c, s, ops[..n]).leases))
  }

  /**
   * A connection that is not an administrator's leaves the secrets, the keys and the sessions as
   * they were, and every lease it creates carries the agent id it is bound to.
   */
  lemma {:induction false} ConfinedRun(c: Config, s: State, who: Caller, ops: seq<Op>)
    requires !who.role.Admin? && AllConfined(who, ops) && FreshIds(c, s, ops)
    ensures var s' := Run(c, s, ops);
      && s'.store == s.store && s'.dek == s.dek && s'.persisted == s.persisted && s'.sessions == s.sessions
      && (forall id | id in s.leases :: id in s'.leases && s'.leases[id].agent == s.leases[id].agent)
      && (who.role.Agent? && who.agentId.Some? ==>
            forall id | id in s'.leases && id !in s.leases :: s'.leases[id].agent == who.agentId.value)
    decreases |ops|
  {
    hide Apply;
    if ops != [] {
      var n := |ops| - 1;
      ConfinedRun(c, s, who, ops[..n]);
      assert Confined(who, ops[n]);
      ConfinedStep(c, Run(c, s, ops[..n]), who, ops[n]);
    }
  }

  /** Role confinement over whole connections. */
  lemma RoleConfinement(c: Config, s: State, codec: Codec, who: Caller, frames: seq<Bytes>, turns: nat -> Turn)
    requires !who.role.Admin? && FreshIds(c, s, OpsOf(codec, who, frames, turns))
    ensures var s' := Run(c, s, OpsOf(codec, who, frames, turns));
      && s'.store == s.store && s'.dek == s.dek && s'.persisted == s.persisted && s'.sessions == s.sessions
      && (forall id | id in s.leases :: id in s'.leases && s'.leases[id].agent == s.leases[id].agent)
      && (who.role.Agent? && who.agentId.Some? ==>
            forall id | id in s'.leases && id !in s.leases :: s'.leases[id].agent == who.agentId.value)
  {
    hide Run, OpsOf, FreshIds, AllConfined;
    OpsConfined(codec, who, frames, turns);
    ConfinedRun(c, s, who, OpsOf(codec, who, frames, turns));
  }
}

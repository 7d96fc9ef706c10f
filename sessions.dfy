/**
 * The WhatsApp session manager: the process-wide `sessions` array of live
 * clients, the account records whose `status`, `qrcode` and `retries` the
 * client's lifecycle events rewrite, and the lookup and removal operations.
 *
 * A whatsapp-web.js `Client` is a value here: the account id stamped on it
 * and a serial number that tells apart the clients built by different calls
 * of `initWbot`. Socket.io notifications, the scheduled reconnect and the
 * client's `destroy()` are recorded in logs.
 */
module Sessions {
  import opened Strings

  datatype Client = Client(id: int, serial: nat)

  /** The outcome of the promise `initWbot` returns; a settled promise ignores later settlements. */
  datatype StartPromise = Pending | Resolved(client: Client) | Rejected(error: string)

  /** `getWbot`'s result: the registered client or the `AppError` it throws. */
  datatype Lookup = Found(client: Client) | NotInitialized(error: string)

  const RestartDelayMs: nat := 5000

  /** Some entry of the registry carries this account id. */
  predicate Registered(sessions: seq<Client>, id: int) {
    exists k | 0 <= k < |sessions| :: sessions[k].id == id
  }

  /** At most one entry per account id. */
  predicate UniqueIds(sessions: seq<Client>) {
    forall i, j | 0 <= i < j < |sessions| :: sessions[i].id != sessions[j].id
  }

  /** `sessions.findIndex(s => s.id === id)`: the first entry with that id, or -1. */
  function FindIndex(sessions: seq<Client>, id: int): (i: int)
    ensures -1 <= i < |sessions|
    ensures i == -1 <==> !Registered(sessions, id)
    ensures i >= 0 ==> sessions[i].id == id && forall k | 0 <= k < i :: sessions[k].id != id
    decreases |sessions|
  {
    if |sessions| == 0 then -1
    else if sessions[0].id == id then 0
    else
      var j := FindIndex(sessions[1..], id);
      if j == -1 then -1 else j + 1
  }

  /** The registry after `ready`: the client is pushed only when no entry has its id. */
  function AfterReady(sessions: seq<Client>, c: Client): seq<Client> {
    if FindIndex(sessions, c.id) == -1 then sessions + [c] else sessions
  }

  /** The registry after `findIndex` and `splice(index, 1)`: the first entry with that id is cut out. */
  function Without(sessions: seq<Client>, id: int): seq<Client> {
    var i := FindIndex(sessions, id);
    if i == -1 then sessions else sessions[..i] + sessions[i + 1..]
  }

  /** The entries of every other account, in registry order. */
  function Others(sessions: seq<Client>, id: int): (r: seq<Client>)
    ensures forall k | 0 <= k < |r| :: r[k].id != id
    decreases |sessions|
  {
    if |sessions| == 0 then []
    else (if sessions[0].id == id then [] else [sessions[0]]) + Others(sessions[1..], id)
  }

  lemma {:induction false} OthersOfConcat(a: seq<Client>, b: seq<Client>, id: int)
    ensures Others(a + b, id) == Others(a, id) + Others(b, id)
    decreases |a|
  {
    if |a| == 0 {
      assert a + b == b;
    } else {
      assert (a + b)[1..] == a[1..] + b;
      OthersOfConcat(a[1..], b, id);
    }
  }

  /** `ready` keeps one entry per id, registers the account, and leaves every other account's entries in order. */
  lemma {:induction false} ReadyRegisters(sessions: seq<Client>, c: Client)
    requires UniqueIds(sessions)
    ensures UniqueIds(AfterReady(sessions, c))
    ensures Registered(AfterReady(sessions, c), c.id)
    ensures Others(AfterReady(sessions, c), c.id) == Others(sessions, c.id)
  {
    var s' := AfterReady(sessions, c);
    if FindIndex(sessions, c.id) == -1 {
      assert s'[|sessions|] == c;
      OthersOfConcat(sessions, [c], c.id);
      assert Others([c], c.id) == [];
    }
  }

  /** Cutting out entry `i` shifts every later entry down by one. */
  lemma CutAt(sessions: seq<Client>, i: int)
    requires 0 <= i < |sessions|
    ensures |sessions[..i] + sessions[i + 1..]| == |sessions| - 1
    ensures forall k | 0 <= k < |sessions| - 1 ::
      (sessions[..i] + sessions[i + 1..])[k] == if k < i then sessions[k] else sessions[k + 1]
  {
  }

  lemma AroundAt(sessions: seq<Client>, i: int)
    requires 0 <= i < |sessions|
    ensures sessions == sessions[..i] + ([sessions[i]] + sessions[i + 1..])
  {
  }

  /** Cutting one entry out of a registry with one entry per id keeps one entry per id. */
  lemma CutKeepsUnique(sessions: seq<Client>, i: int)
    requires 0 <= i < |sessions| && UniqueIds(sessions)
    ensures UniqueIds(sessions[..i] + sessions[i + 1..])
  {
    var s' := sessions[..i] + sessions[i + 1..];
    CutAt(sessions, i);
    forall a, b | 0 <= a < b < |s'|
      ensures s'[a].id != s'[b].id
    {
      var a0 := if a < i then a else a + 1;
      var b0 := if b < i then b else b + 1;
      assert s'[a] == sessions[a0] && s'[b] == sessions[b0] && a0 < b0;
    }
  }

  /** Cutting one entry out brings in no client that was not there. */
  lemma CutKeepsMembers(sessions: seq<Client>, i: int)
    requires 0 <= i < |sessions|
    ensures forall c | c in sessions[..i] + sessions[i + 1..] :: c in sessions
  {
    CutAt(sessions, i);
  }

  /** Cutting out the entry of an account in a registry with one entry per id leaves none of that account. */
  lemma CutRemovesAccount(sessions: seq<Client>, i: int)
    requires 0 <= i < |sessions| && UniqueIds(sessions)
    ensures !Registered(sessions[..i] + sessions[i + 1..], sessions[i].id)
  {
    var s' := sessions[..i] + sessions[i + 1..];
    CutAt(sessions, i);
    forall k | 0 <= k < |s'|
      ensures s'[k].id != sessions[i].id
    {
      var k0 := if k < i then k else k + 1;
      assert s'[k] == sessions[k0] && k0 != i;
    }
  }

  /** Removing an account keeps one entry per id, unregisters it and brings in no new client. */
  lemma {:induction false} WithoutUnregisters(sessions: seq<Client>, id: int)
    requires UniqueIds(sessions)
    ensures UniqueIds(Without(sessions, id))
    ensures !Registered(Without(sessions, id), id)
    ensures forall c | c in Without(sessions, id) :: c in sessions
  {
    var i := FindIndex(sessions, id);
    if i != -1 {
      CutKeepsUnique(sessions, i);
      CutRemovesAccount(sessions, i);
      CutKeepsMembers(sessions, i);
    }
  }

  /** An entry of the account itself contributes nothing to the other accounts' entries. */
  lemma OthersSkip(c: Client, rest: seq<Client>)
    ensures Others([c] + rest, c.id) == Others(rest, c.id)
  {
    assert ([c] + rest)[1..] == rest;
  }

  /** Cutting out an entry of an account leaves the other accounts' entries in order. */
  lemma CutKeepsOthers(sessions: seq<Client>, i: int)
    requires 0 <= i < |sessions|
    ensures Others(sessions[..i] + sessions[i + 1..], sessions[i].id) == Others(sessions, sessions[i].id)
  {
    var id := sessions[i].id;
    var left, right := sessions[..i], sessions[i + 1..];
    AroundAt(sessions, i);
    OthersSkip(sessions[i], right);
    OthersOfConcat(left, [sessions[i]] + right, id);
    OthersOfConcat(left, right, id);
  }

  /** Cutting out an entry of an account leaves every other account registered as before. */
  lemma CutKeepsRegistered(sessions: seq<Client>, i: int, k: int)
    requires 0 <= i < |sessions| && k != sessions[i].id
    ensures Registered(sessions[..i] + sessions[i + 1..], k) <==> Registered(sessions, k)
  {
    var s' := sessions[..i] + sessions[i + 1..];
    CutAt(sessions, i);
    if Registered(sessions, k) {
      var j :| 0 <= j < |sessions| && sessions[j].id == k;
      if j < i {
        assert s'[j].id == k;
      } else {
        assert s'[j - 1].id == k;
      }
    }
    if Registered(s', k) {
      var j :| 0 <= j < |s'| && s'[j].id == k;
      assert s'[j] == sessions[if j < i then j else j + 1];
    }
  }

  /** Removing an account leaves every other account's entries in place and in order. */
  lemma WithoutKeepsOthers(sessions: seq<Client>, id: int)
    ensures Others(Without(sessions, id), id) == Others(sessions, id)
  {
    var i := FindIndex(sessions, id);
    if i != -1 {
      CutKeepsOthers(sessions, i);
    }
  }

  /** Removing an account leaves every other account registered exactly as before. */
  lemma WithoutKeepsRegistered(sessions: seq<Client>, id: int, k: int)
    requires k != id
    ensures Registered(Without(sessions, id), k) <==> Registered(sessions, k)
  {
    var i := FindIndex(sessions, id);
    if i != -1 {
      CutKeepsRegistered(sessions, i, k);
    }
  }

  /** `ready` for a second client of an already registered account keeps the first client. */
  lemma ReadyKeepsRegisteredClient(sessions: seq<Client>, c: Client)
    requires Registered(sessions, c.id)
    ensures AfterReady(sessions, c) == sessions
  {
  }

  /** The account record of the `Whatsapp` table, as the lifecycle handlers rewrite it. */
  class Whatsapp {
    const id: int
    var status: string
    var qrcode: string
    var retries: int

    constructor (id: int, status: string, qrcode: string, retries: int)
      ensures this.id == id && this.status == status && this.qrcode == qrcode && this.retries == retries
    {
      this.id := id;
      this.status := status;
      this.qrcode := qrcode;
      this.retries := retries;
    }
  }

  /** One call of `initWbot`: the account, the client it built, and the promise it returned. */
  class Attempt {
    const whatsapp: Whatsapp
    const client: Client
    var promise: StartPromise

    constructor (whatsapp: Whatsapp, serial: nat)
      ensures this.whatsapp == whatsapp && client == Client(whatsapp.id, serial) && promise == Pending
    {
      this.whatsapp := whatsapp;
      this.client := Client(whatsapp.id, serial);
      this.promise := Pending;
    }
  }

  /** The module state of the session manager. */
  class Registry {
    var sessions: seq<Client>
    /** Serial number of the next client `initWbot` builds. */
    var nextSerial: nat
    /** Account ids with a `whatsappSession` update emitted, in order. */
    var emitted: seq<int>
    /** Clients the message listener was attached to, in order. */
    var listening: seq<Client>
    /** Account ids whose restart was scheduled `RestartDelayMs` after a disconnect, in order. */
    var restarts: seq<int>
    /** Clients whose `destroy()` was called, in order. */
    var destroyed: seq<Client>

    /** One client per account, and every registered client was built by an earlier `initWbot`. */
    ghost predicate Valid()
      reads this
    {
      UniqueIds(sessions) && forall c | c in sessions :: c.serial < nextSerial
    }

    constructor ()
      ensures Valid()
      ensures sessions == [] && emitted == [] && listening == [] && restarts == [] && destroyed == []
    {
      sessions := [];
      nextSerial := 0;
      emitted := [];
      listening := [];
      restarts := [];
      destroyed := [];
    }

    /** `initWbot`: always a brand-new client; the registry is not consulted. */
    method InitWbot(whatsapp: Whatsapp) returns (a: Attempt)
      requires Valid()
      modifies this`nextSerial
      ensures Valid()
      ensures fresh(a)
      ensures a.client !in sessions
      ensures a.whatsapp == whatsapp && a.client == Client(whatsapp.id, old(nextSerial)) && a.promise == Pending
      ensures nextSerial == old(nextSerial) + 1
    {
      a := new Attempt(whatsapp, nextSerial);
      nextSerial := nextSerial + 1;
    }

    /** The `qr` handler: the account shows the new code. */
    method OnQr(a: Attempt, qr: string)
      modifies a.whatsapp, this`emitted
      ensures a.whatsapp.status == "qrcode" && a.whatsapp.qrcode == qr && a.whatsapp.retries == 0
      ensures emitted == old(emitted) + [a.whatsapp.id]
    {
      emitted := emitted + [a.whatsapp.id];
      a.whatsapp.qrcode, a.whatsapp.status, a.whatsapp.retries := qr, "qrcode", 0;
    }

    /** The `auth_failure` handler: the account is disconnected and the start promise rejected; the registry stays as it was and no restart is scheduled. */
    method OnAuthFailure(a: Attempt)
      modifies a, a.whatsapp, this`emitted
      ensures a.whatsapp.status == "DISCONNECTED" && a.whatsapp.qrcode == "" && a.whatsapp.retries == 0
      ensures a.promise == if old(a.promise).Pending? then Rejected("ERR_SESSION_EXPIRED") else old(a.promise)
      ensures emitted == old(emitted) + [a.whatsapp.id]
    {
      emitted := emitted + [a.whatsapp.id];
      a.whatsapp.status, a.whatsapp.qrcode, a.whatsapp.retries := "DISCONNECTED", "", 0;
      if a.promise.Pending? {
        a.promise := Rejected("ERR_SESSION_EXPIRED");
      }
    }

    /** The `ready` handler: the account is connected, the client registered unless its account already is, the listener attached and the promise resolved. */
    method OnReady(a: Attempt)
      requires Valid()
      requires a.client.id == a.whatsapp.id && a.client.serial < nextSerial
      modifies this`sessions, this`emitted, this`listening, a, a.whatsapp
      ensures Valid()
      ensures a.whatsapp.status == "CONNECTED" && a.whatsapp.qrcode == "" && a.whatsapp.retries == 0
      ensures sessions == AfterReady(old(sessions), a.client)
      ensures Registered(sessions, a.whatsapp.id)
      ensures Others(sessions, a.whatsapp.id) == Others(old(sessions), a.whatsapp.id)
      ensures listening == old(listening) + [a.client]
      ensures a.promise == if old(a.promise).Pending? then Resolved(a.client) else old(a.promise)
      ensures emitted == old(emitted) + [a.whatsapp.id]
    {
      emitted := emitted + [a.whatsapp.id];
      a.whatsapp.status, a.whatsapp.qrcode, a.whatsapp.retries := "CONNECTED", "", 0;
      ReadyRegisters(sessions, a.client);
      var sessionIndex := FindIndex(sessions, a.whatsapp.id);
      if sessionIndex == -1 {
        sessions := sessions + [a.client];
      }
      listening := listening + [a.client];
      if a.promise.Pending? {
        a.promise := Resolved(a.client);
      }
    }

    /** `findIndex` and `splice`: the account's entry, if any, is cut out of the registry. */
    method Splice(id: int)
      requires Valid()
      modifies this`sessions
      ensures Valid()
      ensures sessions == Without(old(sessions), id)
      ensures !Registered(sessions, id)
      ensures Others(sessions, id) == Others(old(sessions), id)
    {
      WithoutUnregisters(sessions, id);
      WithoutKeepsOthers(sessions, id);
      var sessionIndex := FindIndex(sessions, id);
      if sessionIndex != -1 {
        sessions := sessions[..sessionIndex] + sessions[sessionIndex + 1..];
      }
    }

    /** The `disconnected` handler: the account's entry is cut out, the account disconnected, and one restart scheduled. */
    method OnDisconnected(a: Attempt)
      requires Valid()
      modifies this`sessions, this`emitted, this`restarts, a.whatsapp
      ensures Valid()
      ensures sessions == Without(old(sessions), a.whatsapp.id)
      ensures !Registered(sessions, a.whatsapp.id)
      ensures Others(sessions, a.whatsapp.id) == Others(old(sessions), a.whatsapp.id)
      ensures a.whatsapp.status == "DISCONNECTED" && a.whatsapp.qrcode == "" && a.whatsapp.retries == 0
      ensures restarts == old(restarts) + [a.whatsapp.id]
      ensures emitted == old(emitted) + [a.whatsapp.id]
    {
      emitted := emitted + [a.whatsapp.id];
      Splice(a.whatsapp.id);
      a.whatsapp.status, a.whatsapp.qrcode, a.whatsapp.retries := "DISCONNECTED", "", 0;
      restarts := restarts + [a.whatsapp.id];
    }

    /** `getWbot`: the registered client of the account, or `ERR_WAPP_NOT_INITIALIZED` exactly when there is none. */
    function GetWbot(id: int): (r: Lookup)
      reads this
      ensures r.NotInitialized? <==> !Registered(sessions, id)
      ensures r.NotInitialized? ==> r.error == "ERR_WAPP_NOT_INITIALIZED"
      ensures r.Found? ==> r.client in sessions && r.client.id == id
    {
      var sessionIndex := FindIndex(sessions, id);
      if sessionIndex == -1 then NotInitialized("ERR_WAPP_NOT_INITIALIZED") else Found(sessions[sessionIndex])
    }

    /** `removeWbot`: destroys and cuts out the account's client if there is one; otherwise nothing happens. */
    method RemoveWbot(id: int)
      requires Valid()
      modifies this`sessions, this`destroyed
      ensures Valid()
      ensures sessions == Without(old(sessions), id)
      ensures !Registered(sessions, id)
      ensures Others(sessions, id) == Others(old(sessions), id)
      ensures destroyed == if Registered(old(sessions), id) then old(destroyed) + [old(sessions)[FindIndex(old(sessions), id)]] else old(destroyed)
    {
      WithoutUnregisters(sessions, id);
      WithoutKeepsOthers(sessions, id);
      var sessionIndex := FindIndex(sessions, id);
      if sessionIndex != -1 {
        destroyed := destroyed + [sessions[sessionIndex]];
        sessions := sessions[..sessionIndex] + sessions[sessionIndex + 1..];
      }
    }
  }

  /** After `ready` the account's client can be looked up; after `disconnected` or `removeWbot` it cannot. */
  method LifecycleComposition(r: Registry, a: Attempt)
    requires r.Valid() && a.client.id == a.whatsapp.id && a.client.serial < r.nextSerial
    modifies r, a, a.whatsapp
    ensures r.Valid()
    ensures r.GetWbot(a.whatsapp.id).NotInitialized?
  {
    r.OnReady(a);
    assert r.GetWbot(a.whatsapp.id).Found?;
    r.OnDisconnected(a);
    assert r.GetWbot(a.whatsapp.id).NotInitialized?;
    r.OnReady(a);
    assert r.GetWbot(a.whatsapp.id) == Found(a.client);
    r.RemoveWbot(a.whatsapp.id);
  }
}

/** The one-time-password service: cmd/otp/otp.go. Both handlers run under one lock, so requests are served one by one. */
module Otp {
  import opened Text

  newtype Byte = x: int | 0 <= x < 256
  type Bytes = seq<Byte>

  /** A request, with what becomes of it: `token` is the random token drawn (none if the generator fails),
      `readFails` and `writeFails` tell whether the body can be read and the response written. */
  datatype Request =
    | Store(body: Bytes, readFails: bool, token: Option<Bytes>, writeFails: bool)
    | Fetch(asked: Bytes, readFails: bool, writeFails: bool)

  datatype Response =
    | Failed
    | Stored(token: Bytes)
    | Unknown
    | Served(body: Bytes)

  type Entries = map<Bytes, Bytes>

  function Serve(entries: Entries, q: Request): (Entries, Response) {
    match q
    case Store(body, readFails, token, writeFails) =>
      if readFails || token.None? then (entries, Failed)
      else if writeFails then (entries - {token.value}, Failed)
      else (entries[token.value := body], Stored(token.value))
    case Fetch(token, readFails, writeFails) =>
      if readFails then (entries, Failed)
      else if token !in entries then (entries, Unknown)
      else (entries - {token}, if writeFails then Failed else Served(entries[token]))
  }

  // ---- the service ---------------------------------------------------------------------------

  const LETTERS: nat := 63

  /** The digits, the upper-case letters, the lower-case letters and the hyphen, in this order. */
  function Letter(d: nat): (b: Byte)
    requires d < LETTERS
    ensures 48 <= b <= 57 || 65 <= b <= 90 || 97 <= b <= 122 || b == 45
  {
    if d < 10 then (48 + d) as Byte
    else if d < 36 then (65 + d - 10) as Byte
    else if d < 62 then (97 + d - 36) as Byte
    else 45
  }

  /** GenerateRandomString: `draws` are the numbers the generator gives before it fails. */
  method GenerateRandomString(n: nat, draws: seq<nat>) returns (r: Option<Bytes>)
    requires forall i :: 0 <= i < |draws| ==> draws[i] < LETTERS
    ensures r.None? <==> |draws| < n
    ensures r.Some? ==> |r.value| == n && forall i :: 0 <= i < n ==> r.value[i] == Letter(draws[i])
  {
    var buffer := new Byte[n];
    for i := 0 to n
      invariant i <= |draws|
      invariant forall j :: 0 <= j < i ==> buffer[j] == Letter(draws[j])
    {
      if i == |draws| {
        return None;
      }
      buffer[i] := Letter(draws[i]);
    }
    return Some(buffer[..]);
  }

  class Service {
    var globalMap: Entries

    constructor ()
      ensures globalMap == map[]
    {
      globalMap := map[];
    }

    /** storekey.ServeHTTP. */
    method StoreKey(body: Bytes, readFails: bool, token: Option<Bytes>, writeFails: bool) returns (r: Response)
      modifies this
      ensures (globalMap, r) == Serve(old(globalMap), Store(body, readFails, token, writeFails))
    {
      if readFails {
        return Failed;
      }
      if token.None? {
        return Failed;
      }
      globalMap := globalMap[token.value := body];
      if writeFails {
        globalMap := globalMap - {token.value};
        assert globalMap == old(globalMap) - {token.value};
        return Failed;
      }
      return Stored(token.value);
    }

    /** otp.ServeHTTP. */
    method FetchKey(token: Bytes, readFails: bool, writeFails: bool) returns (r: Response)
      modifies this
      ensures (globalMap, r) == Serve(old(globalMap), Fetch(token, readFails, writeFails))
    {
      if readFails {
        return Failed;
      }
      var loaded := token in globalMap;
      var res := if loaded then globalMap[token] else [];
      globalMap := globalMap - {token};
      if !loaded {
        assert globalMap == old(globalMap);
        return Unknown;
      }
      if writeFails {
        return Failed;
      }
      return Served(res);
    }
  }

  // ---- traces ----------------------------------------------------------------------------------

  /** The entries before request `n`. */
  function Before(qs: seq<Request>, n: nat): Entries
    requires n <= |qs|
  {
    if n == 0 then map[] else Serve(Before(qs, n - 1), qs[n - 1]).0
  }

  function ResponseTo(qs: seq<Request>, n: nat): Response
    requires n < |qs|
  {
    Serve(Before(qs, n), qs[n]).1
  }

  predicate Succeeds(qs: seq<Request>, n: nat)
    requires n < |qs|
  {
    ResponseTo(qs, n).Stored? || ResponseTo(qs, n).Served?
  }

  /** For each entry before request `n`, the request that stored it. */
  function Origins(qs: seq<Request>, n: nat): map<Bytes, nat>
    requires n <= |qs|
  {
    if n == 0 then map[]
    else
      var origins := Origins(qs, n - 1);
      match qs[n - 1]
      case Store(_, readFails, token, writeFails) =>
        if readFails || token.None? then origins
        else if writeFails then origins - {token.value} else origins[token.value := n - 1]
      case Fetch(token, readFails, _) => if readFails then origins else origins - {token}
  }

  /** Request `j` successfully stored `body` under `token`. */
  predicate StoredAt(qs: seq<Request>, j: nat, token: Bytes, body: Bytes) {
    j < |qs| && qs[j].Store? && qs[j].body == body && ResponseTo(qs, j) == Stored(token)
  }

  lemma {:induction false} OriginsKnown(qs: seq<Request>, n: nat)
    requires n <= |qs|
    ensures Origins(qs, n).Keys == Before(qs, n).Keys
  {
    if n > 0 {
      OriginsKnown(qs, n - 1);
    }
  }

  lemma {:induction false} OriginStored(qs: seq<Request>, n: nat, t: Bytes)
    requires n <= |qs| && t in Origins(qs, n) && t in Before(qs, n)
    ensures Origins(qs, n)[t] < n && StoredAt(qs, Origins(qs, n)[t], t, Before(qs, n)[t])
  {
    if n > 0 && t in Origins(qs, n - 1) && Origins(qs, n)[t] == Origins(qs, n - 1)[t] {
      OriginsKnown(qs, n - 1);
      OriginStored(qs, n - 1, t);
    }
  }

  lemma OriginsAreStores(qs: seq<Request>, n: nat)
    requires n <= |qs|
    ensures Origins(qs, n).Keys == Before(qs, n).Keys
    ensures forall t :: t in Origins(qs, n) ==> Origins(qs, n)[t] < n && StoredAt(qs, Origins(qs, n)[t], t, Before(qs, n)[t])
  {
    OriginsKnown(qs, n);
    forall t | t in Origins(qs, n) ensures Origins(qs, n)[t] < n && StoredAt(qs, Origins(qs, n)[t], t, Before(qs, n)[t]) {
      OriginStored(qs, n, t);
    }
  }

  /** Once fetched, a token is only known again through a later store. */
  lemma {:induction false} FetchedIsGone(qs: seq<Request>, i: nat, n: nat)
    requires i < n <= |qs| && qs[i].Fetch? && !qs[i].readFails
    ensures qs[i].asked in Origins(qs, n) ==> Origins(qs, n)[qs[i].asked] > i
  {
    if n > i + 1 {
      FetchedIsGone(qs, i, n - 1);
    }
  }

  /** The store that a successful fetch is answered from. */
  function SourceOf(qs: seq<Request>, i: nat): nat
    requires i < |qs| && qs[i].Fetch? && Succeeds(qs, i)
  {
    OriginsAreStores(qs, i);
    Origins(qs, i)[qs[i].asked]
  }

  /** A successful fetch returns the body of an earlier successful store of the same token. */
  lemma FetchReturnsStored(qs: seq<Request>, i: nat)
    requires i < |qs| && qs[i].Fetch? && Succeeds(qs, i)
    ensures SourceOf(qs, i) < i
    ensures exists body :: ResponseTo(qs, i) == Served(body) && StoredAt(qs, SourceOf(qs, i), qs[i].asked, body)
  {
    OriginsAreStores(qs, i);
    assert ResponseTo(qs, i) == Served(Before(qs, i)[qs[i].asked]);
  }

  /** No store is served twice: different successful fetches have different sources. */
  lemma NoStoreServedTwice(qs: seq<Request>, i: nat, k: nat)
    requires i < k < |qs| && qs[i].Fetch? && qs[k].Fetch? && Succeeds(qs, i) && Succeeds(qs, k)
    ensures SourceOf(qs, i) != SourceOf(qs, k)
  {
    FetchReturnsStored(qs, i);
    FetchReturnsStored(qs, k);
    OriginsAreStores(qs, k);
    hide Origins, Before;
    if qs[i].asked == qs[k].asked {
      FetchedIsGone(qs, i, k);
    }
  }

  /** What is stored and neither fetched, stored again nor lost is what a fetch gets: a store followed by requests
      that do not mention its token is answered with its body. */
  lemma {:induction false} KeptUntilFetched(qs: seq<Request>, j: nat, n: nat, token: Bytes, body: Bytes)
    requires j < n <= |qs| && StoredAt(qs, j, token, body)
    requires forall k :: j < k < n ==> !Mentions(qs[k], token)
    ensures token in Before(qs, n) && Before(qs, n)[token] == body
  {
    if n > j + 1 {
      KeptUntilFetched(qs, j, n - 1, token, body);
      assert !Mentions(qs[n - 1], token);
    }
  }

  predicate Mentions(q: Request, token: Bytes) {
    match q
    case Store(_, _, drawn, _) => drawn == Some(token)
    case Fetch(asked, _, _) => asked == token
  }

  /** A store or a fetch fails only if the body cannot be read, no token can be drawn, the token is not known or the
      response cannot be written. */
  lemma RequestsSucceed(qs: seq<Request>, n: nat)
    requires n < |qs|
    ensures qs[n].Store? ==> (Succeeds(qs, n) <==> !qs[n].readFails && qs[n].token.Some? && !qs[n].writeFails)
    ensures qs[n].Store? && Succeeds(qs, n) ==> ResponseTo(qs, n) == Stored(qs[n].token.value) && StoredAt(qs, n, qs[n].token.value, qs[n].body)
    ensures qs[n].Fetch? ==> (Succeeds(qs, n) <==> !qs[n].readFails && qs[n].asked in Before(qs, n) && !qs[n].writeFails)
    ensures qs[n].Fetch? && !qs[n].readFails && qs[n].asked !in Before(qs, n) ==> ResponseTo(qs, n) == Unknown
  {
    hide Before;
  }

  /** What was stored is served to the first request that asks for it. */
  lemma StoreThenFetch(qs: seq<Request>, j: nat, k: nat, token: Bytes, body: Bytes)
    requires j < k < |qs| && StoredAt(qs, j, token, body) && forall i :: j < i < k ==> !Mentions(qs[i], token)
    requires qs[k] == Fetch(token, false, false)
    ensures ResponseTo(qs, k) == Served(body)
  {
    KeptUntilFetched(qs, j, k, token, body);
    hide Before;
  }

  /** And to no other: after a fetch that could be read the token is unknown until it is stored again. */
  lemma FetchedOnce(qs: seq<Request>, i: nat, k: nat)
    requires i < k < |qs| && qs[i].Fetch? && !qs[i].readFails && qs[k] == Fetch(qs[i].asked, false, false)
    requires forall n :: i < n < k && qs[n].Store? ==> qs[n].token != Some(qs[i].asked)
    ensures ResponseTo(qs, k) == Unknown
  {
    StaysUnknown(qs, i, k);
    hide Before;
  }

  lemma {:induction false} StaysUnknown(qs: seq<Request>, i: nat, k: nat)
    requires i < k <= |qs| && qs[i].Fetch? && !qs[i].readFails
    requires forall n :: i < n < k && qs[n].Store? ==> qs[n].token != Some(qs[i].asked)
    ensures qs[i].asked !in Before(qs, k)
  {
    if k > i + 1 {
      StaysUnknown(qs, i, k - 1);
    }
  }
}

/**
 * The idempotency replay cache in front of a write: a map from client key to
 * the first response sent under it, with a 24-hour lifetime. The response
 * body type `B` is left abstract; bodies are replayed verbatim.
 */
module Idempotency {
  import opened Wrappers

  /** Lifetime of a record: 24 hours in milliseconds. */
  const TtlMs: int := 24 * 60 * 60 * 1000

  datatype Record<B> = Record(statusCode: int, body: B, expiresAt: int)

  type Store<B> = map<string, Record<B>>

  /** A response: status, body, and the `Idempotency-Key` header when one is set. */
  datatype Response<B> = Response(status: int, body: B, keyHeader: Option<string>)

  /** An absent or empty key turns the cache off for the request. */
  predicate Honoured(key: Option<string>) {
    key.Some? && key.value != ""
  }

  /** A record is expired once its expiry instant lies strictly in the past. */
  predicate Expired<B>(rec: Record<B>, now: int) {
    rec.expiresAt < now
  }

  /** What the cache decides before the write runs. */
  datatype Decision<B> =
    | PassThrough
    | Replay(response: Response<B>)
    | Proceed(store: Store<B>, key: string)

  /**
   * The lookup: no key passes through; a live record is replayed with its
   * status and body; an expired record is deleted and the request proceeds as
   * a miss.
   */
  function Check<B>(store: Store<B>, now: int, key: Option<string>): (d: Decision<B>)
    ensures !Honoured(key) <==> d.PassThrough?
    ensures d.Replay? <==> Honoured(key) && key.value in store && !Expired(store[key.value], now)
    ensures d.Replay? ==>
      var rec := store[key.value];
      d.response == Response(rec.statusCode, rec.body, Some(key.value))
    ensures d.Proceed? ==> d.key == key.value && d.key !in d.store && d.store == store - {key.value}
  {
    if !Honoured(key) then PassThrough
    else
      var k := key.value;
      if k in store then
        if Expired(store[k], now) then Proceed(store - {k}, k)
        else Replay(Response(store[k].statusCode, store[k].body, Some(k)))
      else Proceed(store, k)
  }

  /**
   * Insert-only recording: a key that already has a record keeps it (the
   * failed insert is only logged); otherwise the record is added. No other
   * key is touched.
   */
  function Insert<B>(store: Store<B>, key: string, rec: Record<B>): (s: Store<B>)
    ensures s.Keys == store.Keys + {key}
    ensures key in store ==> s[key] == store[key]
    ensures key !in store ==> s[key] == rec
    ensures forall k :: k in store && k != key ==> s[k] == store[k]
  {
    if key in store then store else store[key := rec]
  }

  /**
   * The wrapped `res.json`: sets the key header and records whatever status
   * is in effect with the body, expiring one lifetime after `now`. There is
   * no filter on the status, so error responses are recorded too.
   */
  function Respond<B>(store: Store<B>, key: string, now: int, status: int, body: B): (r: (Response<B>, Store<B>))
    ensures r.0.status == status && r.0.body == body && r.0.keyHeader == Some(key)
    ensures key !in store ==> r.1 == store[key := Record(status, body, now + TtlMs)]
    ensures key in store ==> r.1 == store
  {
    (Response(status, body, Some(key)), Insert(store, key, Record(status, body, now + TtlMs)))
  }

  /**
   * One request through the cache, given the status and body the write
   * would produce if it ran: no key passes the write's response through, a
   * live record is replayed, and otherwise the write's response is sent and
   * recorded in place of any expired record.
   */
  function Step<B>(store: Store<B>, now: int, key: Option<string>, status: int, body: B): (r: (Response<B>, Store<B>))
    ensures !Honoured(key) ==> r == (Response(status, body, None), store)
    ensures Honoured(key) && key.value in store && now <= store[key.value].expiresAt ==>
      r == (Response(store[key.value].statusCode, store[key.value].body, Some(key.value)), store)
    ensures Honoured(key) && (key.value !in store || store[key.value].expiresAt < now) ==>
      r == (Response(status, body, Some(key.value)), store[key.value := Record(status, body, now + TtlMs)])
  {
    match Check(store, now, key)
    case PassThrough => (Response(status, body, None), store)
    case Replay(response) => (response, store)
    case Proceed(s, k) =>
      var rec := Record(status, body, now + TtlMs);
      assert s[k := rec] == store[k := rec];
      Respond(s, k, now, status, body)
  }

  /** The record is still live at its own expiry instant. */
  lemma LiveAtExpiryInstant<B>(rec: Record<B>)
    ensures !Expired(rec, rec.expiresAt)
    ensures Expired(rec, rec.expiresAt + 1)
  {
  }

  /** An expired record behaves exactly as if it had never been stored. */
  lemma ExpiredIsMiss<B>(store: Store<B>, now: int, k: string, status: int, body: B)
    requires k != "" && k in store && store[k].expiresAt < now
    ensures Step(store, now, Some(k), status, body) == Step(store - {k}, now, Some(k), status, body)
  {
  }

  /** Only the request's own key is ever added, replaced or removed. */
  lemma OtherKeysUntouched<B>(store: Store<B>, now: int, key: Option<string>, status: int, body: B, other: string)
    requires !(key.Some? && key.value == other)
    ensures var s := Step(store, now, key, status, body).1;
      (other in s <==> other in store) && (other in s ==> s[other] == store[other])
  {
  }

  /**
   * Whatever the first request under a key did, a second one under the same
   * key before the stored record expires is answered with the first
   * response, and the cache does not change.
   */
  lemma RepeatReplays<B>(
    store: Store<B>, t1: int, t2: int, k: string, status1: int, body1: B, status2: int, body2: B)
    requires k != ""
    requires var s1 := Step(store, t1, Some(k), status1, body1).1; t2 <= s1[k].expiresAt
    ensures var (r1, s1) := Step(store, t1, Some(k), status1, body1);
      Check(s1, t2, Some(k)).Replay? && Step(s1, t2, Some(k), status2, body2) == (r1, s1)
  {
  }

  /** A first request under a fresh key is replayed for a full lifetime. */
  lemma FreshKeyReplayedForLifetime<B>(
    store: Store<B>, t1: int, t2: int, k: string, status1: int, body1: B, status2: int, body2: B)
    requires k != "" && k !in store
    requires t1 <= t2 <= t1 + TtlMs
    ensures var (r1, s1) := Step(store, t1, Some(k), status1, body1);
      Step(s1, t2, Some(k), status2, body2) == (r1, s1)
      && r1 == Response(status1, body1, Some(k))
  {
    RepeatReplays(store, t1, t2, k, status1, body1, status2, body2);
  }
}

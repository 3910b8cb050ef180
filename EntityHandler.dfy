/**
 * What the `/v0/entity` handlers do with the dao once the `id` is valid, in
 * both servers: the key is the UTF-8 encoding of the id; GET looks it up, PUT
 * upserts the body, DELETE upserts a tombstone, and the outcome picks the status.
 * An exception from the dao (closed, too many flushes) is the error of the step.
 */
module EntityHandler {
  import opened Common
  import opened EngineState
  import opened Http
  import Utf8
  import EngineProperties

  function KeyOf(id: string): Key {
    Utf8.Encode(id)
  }

  /** GET: `NOT_FOUND` for a null or tombstone result, otherwise `OK` with the value's bytes. */
  function GetResponse(s: State, key: Key): Result<Response> {
    if s.closed then Err(DaoClosed)
    else
      var result := Visible(PointGet(s, key));
      if result.None? || result.value.IsTombstone() then Ok(Response(NotFound404, Empty))
      else Ok(Response(Ok200, result.value.value.bytes))
  }

  /** An upsert of `value` answered with `status` once the dao accepts it. */
  function UpsertResponse(s: State, key: Key, value: Value, status: Status, overflowed: bool, disk: Disk): Step<Response> {
    var u := UpsertStep(s, Entry(key, value), overflowed, disk);
    Step(u.state, if u.result.Err? then Err(u.result.error) else Ok(Response(status, Empty)))
  }

  /** PUT: upsert `(key, body)`, answer `CREATED`. */
  function PutStep(s: State, key: Key, body: Bytes, overflowed: bool, disk: Disk): Step<Response> {
    UpsertResponse(s, key, Data(body), Created201, overflowed, disk)
  }

  /** DELETE: upsert `(key, null)`, answer `ACCEPTED`. */
  function DeleteStep(s: State, key: Key, overflowed: bool, disk: Disk): Step<Response> {
    UpsertResponse(s, key, Tombstone, Accepted202, overflowed, disk)
  }

  /** `handleRequest(Request, String)` of the multi-threaded server: dispatch on the method. */
  function LocalStep(s: State, verb: HttpMethod, id: string, body: Bytes, overflowed: bool, disk: Disk): Step<Response> {
    var key := KeyOf(id);
    match verb
    case Get => Step(s, GetResponse(s, key))
    case Put => PutStep(s, key, body, overflowed, disk)
    case Delete => DeleteStep(s, key, overflowed, disk)
    case _ => Step(s, Ok(Response(MethodNotAllowed405, Empty)))
  }

  /** The statuses each method can answer with on an open dao, and which
      methods leave the dao untouched. */
  lemma LocalStatuses(s: State, verb: HttpMethod, id: string, body: Bytes, overflowed: bool, disk: Disk)
    requires !s.closed
    ensures var l := LocalStep(s, verb, id, body, overflowed, disk);
      (verb == Get ==>
         (l.state == s && l.result.Ok?
          && l.result.value.status in {Ok200, NotFound404}
          && (l.result.value.status == NotFound404 <==> Visible(PointGet(s, KeyOf(id))).None?)
          && (l.result.value.status == Ok200 ==>
                PointGet(s, KeyOf(id)) == Some(Entry(PointGet(s, KeyOf(id)).value.key, Data(l.result.value.body))))))
      && (verb == Put ==> l.result.Ok? ==> l.result.value == Response(Created201, Empty))
      && (verb == Delete ==> l.result.Ok? ==> l.result.value == Response(Accepted202, Empty))
      && (verb !in {Get, Put, Delete} ==> l == Step(s, Ok(Response(MethodNotAllowed405, Empty))))
      && (verb in {Put, Delete} ==> (l.result.Err? <==> overflowed && IsFlushing(s)))
  {
    if verb == Put || verb == Delete {
      EngineProperties.UpsertFlushesOnlyOnOverflow(s, Entry(KeyOf(id), if verb == Put then Data(body) else Tombstone), overflowed, disk);
    }
  }

  /** A PUT is read back by the next GET of the same id, and changes no GET of
      another id. The proviso is the one of the point lookup: the PUT must not
      have started a flush that failed. */
  lemma GetAfterPut(s: State, id: string, other: string, body: Bytes, overflowed: bool, disk: Disk)
    requires !s.closed
    requires !(overflowed && !IsFlushing(s) && disk == DiskFails)
    ensures var t := PutStep(s, KeyOf(id), body, overflowed, disk).state;
      GetResponse(t, KeyOf(id)) == Ok(Response(Ok200, body))
      && (other != id ==> GetResponse(t, KeyOf(other)) == GetResponse(s, KeyOf(other)))
  {
    EngineProperties.UpsertUpdatesPointGet(s, Entry(KeyOf(id), Data(body)), overflowed, disk, KeyOf(id));
    if other != id {
      Utf8.EncodeInjective(other, id);
      EngineProperties.UpsertUpdatesPointGet(s, Entry(KeyOf(id), Data(body)), overflowed, disk, KeyOf(other));
    }
  }

  /** A DELETE makes the next GET of the id answer `NOT_FOUND`, under the same proviso. */
  lemma GetAfterDelete(s: State, id: string, overflowed: bool, disk: Disk)
    requires !s.closed
    requires !(overflowed && !IsFlushing(s) && disk == DiskFails)
    ensures !(overflowed && IsFlushing(s)) ==>
              DeleteStep(s, KeyOf(id), overflowed, disk).result == Ok(Response(Accepted202, Empty))
    ensures GetResponse(DeleteStep(s, KeyOf(id), overflowed, disk).state, KeyOf(id)) == Ok(Response(NotFound404, Empty))
  {
    EngineProperties.DeleteHidesKey(s, KeyOf(id), overflowed, disk, None, None);
  }
}

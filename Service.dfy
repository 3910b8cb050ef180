/**
 * `SimpleService`: the single-node service whose one.nio handlers for
 * `/v0/entity` validate the `id` and then read or write the dao. The handler
 * per method is chosen by the framework's routing, so each handler here is
 * the body of one annotated Java method.
 */
module Service {
  import opened Common
  import opened EngineState
  import opened Http
  import opened EntityHandler
  import Utf8
  import ScheredinDao

  class SimpleService {
    const dao: ScheredinDao.MemorySegmentDao

    /** The service over the dao `start()` opens. */
    constructor (dao: ScheredinDao.MemorySegmentDao)
      ensures this.dao == dao
    {
      this.dao := dao;
    }

    /** `handleGet(id)`. */
    method HandleGet(id: Option<string>) returns (r: Result<Response>)
      ensures IsIncorrectId(id) ==> r == Ok(Response(BadRequest400, Empty))
      ensures !IsIncorrectId(id) ==> r == GetResponse(dao.state, KeyOf(id.value))
      ensures r.Err? <==> !IsIncorrectId(id) && dao.state.closed
      ensures r.Ok? && r.value.status == Ok200 ==>
                !IsIncorrectId(id)
                && PointGet(dao.state, KeyOf(id.value)).Some?
                && PointGet(dao.state, KeyOf(id.value)).value.value == Data(r.value.body)
    {
      if id.None? || IsBlank(id.value) {
        return Ok(Response(BadRequest400, Empty));
      }
      var key := Utf8.Encode(id.value);
      var result := dao.Get(key);
      if result.Err? {
        return Err(result.error);
      }
      if result.value.None? || result.value.value.IsTombstone() {
        return Ok(Response(NotFound404, Empty));
      }
      return Ok(Response(Ok200, result.value.value.value.bytes));
    }

    /** `handlePut(id, request)`. */
    method HandlePut(id: Option<string>, body: Bytes, overflowed: bool, disk: Disk) returns (r: Result<Response>)
      modifies dao
      ensures IsIncorrectId(id) ==> r == Ok(Response(BadRequest400, Empty)) && dao.state == old(dao.state)
      ensures !IsIncorrectId(id) ==>
                var step := PutStep(old(dao.state), KeyOf(id.value), body, overflowed, disk);
                dao.state == step.state && r == step.result
    {
      if id.None? || IsBlank(id.value) {
        return Ok(Response(BadRequest400, Empty));
      }
      var key := Utf8.Encode(id.value);
      var done := dao.Upsert(Entry(key, Data(body)), overflowed, disk);
      if done.Err? {
        return Err(done.error);
      }
      return Ok(Response(Created201, Empty));
    }

    /** `handleDelete(id)`. */
    method HandleDelete(id: Option<string>, overflowed: bool, disk: Disk) returns (r: Result<Response>)
      modifies dao
      ensures IsIncorrectId(id) ==> r == Ok(Response(BadRequest400, Empty)) && dao.state == old(dao.state)
      ensures !IsIncorrectId(id) ==>
                var step := DeleteStep(old(dao.state), KeyOf(id.value), overflowed, disk);
                dao.state == step.state && r == step.result
    {
      if id.None? || IsBlank(id.value) {
        return Ok(Response(BadRequest400, Empty));
      }
      var key := Utf8.Encode(id.value);
      var done := dao.Upsert(Entry(key, Tombstone), overflowed, disk);
      if done.Err? {
        return Err(done.error);
      }
      return Ok(Response(Accepted202, Empty));
    }
  }
}

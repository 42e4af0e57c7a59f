/**
 * The server's registry of task websockets (`ConnectionManager`): a dictionary
 * from task id to the socket that listens for it, and the status push that
 * drops a socket whose send fails.
 */
module ConnectionManager {
  import opened Wrappers
  import opened Json

  /** An accepted websocket; only its identity matters here. */
  datatype Socket = Socket(id: nat)

  /** One `send_json` call: the socket and the payload handed to it. */
  datatype Delivery = Delivery(to: Socket, payload: Object)

  /** Python truthiness of `str | None`. */
  predicate MessageTruthy(message: Option<string>)
  {
    message.Some? && message.value != ""
  }

  /** Python truthiness of `dict | None`. */
  predicate ResultTruthy(result: Option<Object>)
  {
    result.Some? && result.value != map[]
  }

  /** The payload `send_status` builds: `status` always, `message` and `result` only when truthy. */
  function StatusPayload(status: string, message: Option<string>, result: Option<Object>): (p: Object)
    ensures "status" in p && p["status"] == JStr(status)
    ensures "message" in p <==> MessageTruthy(message)
    ensures MessageTruthy(message) ==> p["message"] == JStr(message.value)
    ensures "result" in p <==> ResultTruthy(result)
    ensures ResultTruthy(result) ==> p["result"] == JObj(result.value)
    ensures p.Keys <= {"status", "message", "result"}
  {
    var p0 := map["status" := JStr(status)];
    var p1 := if MessageTruthy(message) then p0["message" := JStr(message.value)] else p0;
    if ResultTruthy(result) then p1["result" := JObj(result.value)] else p1
  }

  /** The payload always has one, two or three keys, one per truthy argument plus `status`. */
  lemma PayloadSize(status: string, message: Option<string>, result: Option<Object>)
    ensures |StatusPayload(status, message, result)| ==
            1 + (if MessageTruthy(message) then 1 else 0) + (if ResultTruthy(result) then 1 else 0)
  {
    var p := StatusPayload(status, message, result);
    if MessageTruthy(message) && ResultTruthy(result) {
      assert p.Keys == {"status", "message", "result"};
    } else if MessageTruthy(message) {
      assert p.Keys == {"status", "message"};
    } else if ResultTruthy(result) {
      assert p.Keys == {"status", "result"};
    } else {
      assert p.Keys == {"status"};
    }
  }

  class ConnectionManager {
    var activeConnections: map<string, Socket>

    constructor ()
      ensures activeConnections == map[]
    {
      activeConnections := map[];
    }

    /** `connect`: the accepted socket replaces any earlier one for `taskId`. */
    method Connect(ws: Socket, taskId: string)
      modifies this
      ensures activeConnections == old(activeConnections)[taskId := ws]
      ensures forall t :: t in old(activeConnections) && t != taskId ==>
                t in activeConnections && activeConnections[t] == old(activeConnections)[t]
    {
      activeConnections := activeConnections[taskId := ws];
    }

    /** `disconnect`: `pop(task_id, None)`, a no-op for an unknown task. */
    method Disconnect(taskId: string)
      modifies this
      ensures activeConnections == old(activeConnections) - {taskId}
      ensures taskId !in old(activeConnections) ==> activeConnections == old(activeConnections)
    {
      activeConnections := activeConnections - {taskId};
    }

    /**
     * `send_status`. `sendSucceeds` says whether `send_json` returned
     * normally; on any exception the task is disconnected.
     */
    method SendStatus(taskId: string, status: string, message: Option<string>, result: Option<Object>, sendSucceeds: bool)
      returns (attempt: Option<Delivery>)
      modifies this
      ensures taskId !in old(activeConnections) ==> attempt == None && activeConnections == old(activeConnections)
      ensures taskId in old(activeConnections) ==>
                attempt == Some(Delivery(old(activeConnections)[taskId], StatusPayload(status, message, result)))
      ensures activeConnections ==
                if taskId in old(activeConnections) && !sendSucceeds
                then old(activeConnections) - {taskId}
                else old(activeConnections)
    {
      if taskId !in activeConnections {
        return None;
      }
      var ws := activeConnections[taskId];
      var payload: Object := map["status" := JStr(status)];
      if MessageTruthy(message) {
        payload := payload["message" := JStr(message.value)];
      }
      if ResultTruthy(result) {
        payload := payload["result" := JObj(result.value)];
      }
      attempt := Some(Delivery(ws, payload));
      if !sendSucceeds {
        Disconnect(taskId);
      }
    }
  }
}

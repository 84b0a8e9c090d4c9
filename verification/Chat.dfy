/** The chat service (sandcat_prectice/chat/src/main.rs): stamp a message, append it to the
    one-partition topic, answer. */
module Chat {
  import opened Wrappers
  import opened Messages

  datatype Answer = Answer(localId: string, serverId: string, sendTime: int, err: string)

  function Stamped(m: Msg, id: string, now: int): Msg {
    m.(serverId := id, sendTime := now)
  }

  function AnswerTo(m: Msg, id: string, now: int, err: string): Answer {
    Answer(m.localId, id, now, err)
  }

  /** What the producer reports. A failed send may nevertheless have reached the topic. */
  datatype Produce = Delivered | Failed(error: string, appended: bool)

  class ChatRpcService {
    var topic: seq<Msg>

    constructor ()
      ensures topic == []
    {
      topic := [];
    }

    /** `id` and `now` come from the id generator and the clock. A producer error is answered, not
        returned as an error; its text is never empty. */
    method SendMsg(message: Option<Msg>, id: string, now: int, produce: Produce) returns (r: Result<Answer>)
      requires produce.Failed? ==> produce.error != ""
      modifies this
      ensures message.None? ==> r.Err? && topic == old(topic)
      ensures message.Some? ==> r == Ok(AnswerTo(message.value, id, now, if produce.Failed? then produce.error else ""))
      ensures message.Some? ==>
                topic == old(topic) + if produce.Failed? && !produce.appended then []
                                      else [Stamped(message.value, id, now)]
      ensures message.Some? && (produce.Delivered? || produce.appended) ==>
                && |topic| == |old(topic)| + 1
                && var m, before := topic[|old(topic)|], message.value;
                   && m.serverId == id && m.sendTime == now
                   && m.sendId == before.sendId && m.receiverId == before.receiverId && m.localId == before.localId
                   && m.createTime == before.createTime && m.number == before.number && m.msgType == before.msgType
                   && m.contentType == before.contentType && m.content == before.content && m.isRead == before.isRead
      ensures message.Some? ==>
                && r.Ok? && r.value.localId == message.value.localId
                && r.value.serverId == id && r.value.sendTime == now
                && r.value.err == if produce.Delivered? then "" else produce.error
    {
      if message.None? {
        return Err("message is empty");
      }
      var msg := message.value;
      msg := msg.(serverId := id);
      msg := msg.(sendTime := now);
      var err := "";
      match produce {
        case Delivered =>
          topic := topic + [msg];
        case Failed(error, appended) =>
          if appended {
            topic := topic + [msg];
          }
          err := error;
      }
      r := Ok(Answer(msg.localId, msg.serverId, msg.sendTime, err));
    }
  }
}

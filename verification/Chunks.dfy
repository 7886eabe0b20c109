/** The chunk data model of cafe-types: annotations, and what the bus reads out of them. */
module Chunks {
  import opened Basics

  type SessionId = string
  type ConnId = string
  type ChunkId = string

  /** A JSON annotation value. */
  datatype Value =
    | Null
    | Bool(b: bool)
    | Number(n: int)
    | Str(s: string)
    | List(items: seq<Value>)
    | Object(fields: map<string, Value>)

  datatype ContentType = Text | Binary | BinaryRef | NullContent

  datatype Chunk = Chunk(
    id: ChunkId,
    contentType: ContentType,
    content: Option<string>,
    producer: string,
    annotations: map<string, Value>)

  const CAFE_TRANSIENT := "cafe.transient"
  const CAFE_TRANSIENT_RETAIN_SECS := "cafe.transient.retain_secs"
  const CAFE_FLOW_SIGNAL := "cafe.flow.signal"
  const FLOW_TARGET_CHUNK_ID := "flow.target_chunk_id"
  const CAFE_SOURCE_CONNECTION := "cafe.source.connection"
  const CAFE_JSONRPC_REQUEST := "cafe.jsonrpc.request"
  const CHAT_ROLE := "chat.role"
  const SECURITY_TRUST_LEVEL := "security.trust-level"

  function Annotation(c: Chunk, key: string): Value {
    if key in c.annotations then c.annotations[key] else Null
  }

  function TextAnnotation(c: Chunk, key: string): Option<string> {
    var v := Annotation(c, key);
    if v.Str? then Some(v.s) else None
  }

  function WithAnnotation(c: Chunk, key: string, v: Value): Chunk {
    c.(annotations := c.annotations[key := v])
  }

  /** Broadcast to live subscribers but never appended to history. */
  predicate IsTransient(c: Chunk) {
    Annotation(c, CAFE_TRANSIENT) == Bool(true)
  }

  /** How long a transient chunk stays readable; None is fire-and-forget. */
  function RetainSecs(c: Chunk): Option<nat> {
    var v := Annotation(c, CAFE_TRANSIENT_RETAIN_SECS);
    if IsTransient(c) && v.Number? && 0 <= v.n then Some(v.n) else None
  }

  /** The id that a `cafe.flow.signal = "delete"` control chunk retires. */
  function DeleteTarget(c: Chunk): Option<ChunkId> {
    if TextAnnotation(c, CAFE_FLOW_SIGNAL) != Some("delete") then None
    else TextAnnotation(c, FLOW_TARGET_CHUNK_ID)
  }

  /** A chunk that publishing appends to history. */
  predicate Stored(c: Chunk) {
    DeleteTarget(c).None? && !IsTransient(c)
  }

  function Role(c: Chunk): Option<string> {
    TextAnnotation(c, CHAT_ROLE)
  }

  datatype RpcRequest = RpcRequest(id: string, rpcMethod: string)

  /** The JSON-RPC request a chunk carries, when its annotation deserializes as one. */
  function AsRpcRequest(c: Chunk): Option<RpcRequest> {
    var v := Annotation(c, CAFE_JSONRPC_REQUEST);
    if v.Object? && "jsonrpc" in v.fields && v.fields["jsonrpc"].Str?
       && "id" in v.fields && v.fields["id"].Str?
       && "method" in v.fields && v.fields["method"].Str?
       && "params" in v.fields
    then Some(RpcRequest(v.fields["id"].s, v.fields["method"].s))
    else None
  }
}

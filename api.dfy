/**
 What the transport hands back for one request, and the APIResponse
 envelope the collection returns. The HTTP transport, json_decode and
 HetznerAPIClient::hasError are not part of this model: a response carries
 the verdict of hasError and the body as json_decode produced it.
 */
module Api {
  import opened Wrappers
  import opened Php
  import opened Models

  /** Response headers, name to values. */
  type Headers = map<string, seq<string>>

  datatype Response = Response(hasError: bool, body: Value, headers: Headers)

  /** One named part of an envelope's payload. */
  datatype Part =
    | MetaPart(meta: Meta)
    | ServersPart(servers: seq<Item<Option<Server>>>)
    | ServerPart(server: Server)
    | ActionPart(action: Action)
    | ActionsPart(actions: seq<Item<Action>>)
    | RawPart(raw: Value)

  /** APIResponse::create($parts, $headers). */
  datatype ApiResponse = ApiResponse(parts: map<string, Part>, headers: Headers)
}

/** The envelope every call of the remote document client returns (`ApiResponse` in
    src/lib/services/jsonApi.ts). The client itself performs network I/O and is not modelled: the
    store's actions receive the outcome of the one call they make as a parameter. */
module JsonApi {
  import opened Wrappers
  import opened Canonical

  /** `{ success, data?, message?, error? }`; an absent `message` or `error` is the empty string. */
  datatype ApiResponse = ApiResponse(success: bool, data: Option<Json>, message: string, error: string)

  /** The outcome of awaiting one client call: the envelope it resolved to, or a thrown exception. */
  datatype ApiCall = Returned(response: ApiResponse) | Threw

  /** `response.success && response.data`: the call resolved to a successful envelope whose payload
      is present and truthy. */
  predicate HasData(call: ApiCall)
  {
    call.Returned? && call.response.success && call.response.data.Some? && Truthy(call.response.data.value)
  }

  /** The payload of a call that has data. */
  function Payload(call: ApiCall): (data: Json)
    requires HasData(call)
    ensures Truthy(data)
  {
    call.response.data.value
  }

  /** `response.success` of a call that resolved, `false` for one that threw. */
  predicate Succeeded(call: ApiCall)
  {
    call.Returned? && call.response.success
  }
}

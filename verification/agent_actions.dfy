/** The requests the agent facades hand to the shared dispatcher, and the
    reply they get back. The dispatcher itself (queueing, routing to an AI
    backend, retries) is outside this model: a facade is a function of the
    reply it receives. */
module AgentActions {
  import opened Values

  /** The action categories the modelled facades use. */
  datatype ActionCategory = Analysis | Task

  /** `queueAction(category, { type: kind, data })` */
  datatype ActionRequest = ActionRequest(category: ActionCategory, kind: string, data: map<string, Value>)

  /** The settled `queueAction` promise: a result whose `payload` the facade
      reads, or a rejection. */
  datatype Reply = Replied(payload: Value) | Rejected

  /** Why a facade without its own `catch` rejects: the dispatcher rejected,
      or reading a property of a `null` or `undefined` payload item threw. */
  datatype FacadeError = DispatchFailed | ItemTypeError(error: TypeError)
}

/** The messages of the remote list service and the shape of a remote call's reply.
    What the service does with a request is not modelled: every reply is an input. */
module ListService {
  import opened Types

  /** A Go error value, known to the adapter only through its message. */
  datatype Error = Error(message: string)

  datatype GetListReq = GetListReq(name: string)
  datatype GetListResp = GetListResp(status: string, items: Slice)

  datatype CreateListReq = CreateListReq(name: string, description: string)
  datatype CreateListResp = CreateListResp(status: string)

  datatype UpdateListItemsReq = UpdateListItemsReq(name: string, newItems: Slice)
  datatype UpdateListItemsResp = UpdateListItemsResp(status: string)

  datatype DeleteListReq = DeleteListReq(name: string)
  datatype DeleteListResp = DeleteListResp(status: string)

  /** The pair (response, error) a client call returns; either may be nil. */
  datatype Reply<R> = Reply(err: Option<Error>, resp: Option<R>) {
    /** A generated gRPC client returns a response exactly when it returns no error. */
    predicate FromGeneratedClient() {
      err.Some? != resp.Some?
    }
  }
}

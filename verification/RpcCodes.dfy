/** The gRPC status codes the driver answers with, shared by both services. */
module RpcCodes {
  datatype Code =
    | InvalidArgument
    | NotFound
    | AlreadyExists
    | Aborted
    | OutOfRange
    | FailedPrecondition
    | Internal
    | Unimplemented
}

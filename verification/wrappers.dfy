/** Optional values: what the base64 decoder, the speech synthesiser and the
    query handler's answer produce when they may produce nothing. */
module Wrappers {

  datatype Option<+T> = None | Some(value: T)
}

/** The envelope types shared by the pallets and the runtime. */
module Support {
  /** A block: a header and the extrinsics to execute, in list order. */
  datatype Block<H, X> = Block(header: H, extrinsics: seq<X>)

  /** A header carries only the number the block declares it has. */
  datatype Header<N> = Header(blockNumber: N)

  /**
   * An extrinsic pairs who calls with what is called. The caller is not part
   * of the call payload, so a call cannot name its own caller.
   */
  datatype Extrinsic<C, K> = Extrinsic(caller: C, call: K)

  /** The outcome of a dispatch: success, or a static error message. */
  datatype DispatchResult = Ok | Err(message: string)

  /** An optional value, as returned by a map lookup. */
  datatype Option<T> = None | Some(value: T)
}

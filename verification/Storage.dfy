/** The entities every component shares: the volume record and its states. */
module Storage {

  datatype Option<+T> = None | Some(value: T)

  datatype State =
    | Pending
    | Creating
    | CreatingFailed
    | Available
    | Attaching
    | AttachingFailed
    | Attached
    | Detaching
    | DetachingFailed
    | Deleting
    | DeletingFailed
    | Deleted
    | Error

  /** The value of a volume record.  Timestamps are not modelled. */
  datatype Volume = Volume(
    id: string, name: string, sizeMB: int, state: State, backend: string, nodeID: string)

}

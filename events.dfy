/**
 What the handlers and the stream threads emit over the socket, and the
 outcomes of calls into the Docker client.
 */
module Events {
  import opened Containers

  type ContainerId = string

  datatype Option<T> = None | Some(value: T)

  /**
   The outcome of a call into the Docker client: a value, or the message of
   the exception it raised (`str(e)`).
   */
  datatype Outcome<T> = Ok(value: T) | Raised(error: string)

  /** The `stream` field of a `log` event. */
  datatype Tag = Stdout | System

  /**
   One emitted socket event: a `log` line with its stream tag, an `error`
   with its message, or the `containers` list. Timestamps and recipients
   are not recorded.
   */
  datatype Event =
    | Log(message: string, stream: Tag)
    | Error(message: string)
    | ContainerList(summaries: seq<Summary>)

  const NotConnected := "Docker not connected"
  const FailedToGetContainers := "Failed to get containers: "
  const FailedToStart := "Failed to start logs: "
  const StreamError := "Log stream error: "
  const ConnectedTo := "Connected to container: "
}

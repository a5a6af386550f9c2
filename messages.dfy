/** The inbound MIDI real-time messages the three components dispatch on, and the
    outcome of a computation that Python can abort with ZeroDivisionError. */
module Messages {

  /** A decoded inbound message. Only the four system real-time types matter; every
      other message type (note_on, control_change, ...) is carried as Other and ignored. */
  datatype Message = Clock | Start | Continue | Stop | Other(kind: string)

  datatype Option<T> = None | Some(value: T)

  /** The value of a computation, or the ZeroDivisionError Python raises on a zero divisor. */
  datatype Outcome<T> = Ok(value: T) | ZeroDivisionError
}

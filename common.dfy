/** Values shared by both versions of the retry helper: Java references
    reduced to their identity, RxJava schedulers, time units and throwables. */
module Common {

  /** A Java reference that may be null. */
  datatype Option<+T> = None | Some(value: T)

  /** The identity of an object the helper only stores and passes on
      (a callback, an operation listener, a lifecycle owner). */
  datatype Ref = Ref(id: nat)

  /** An RxJava `Scheduler`, by identity. */
  datatype Scheduler = Io | MainThread | Computation | OtherScheduler(id: nat)

  /** `java.util.concurrent.TimeUnit`. */
  datatype TimeUnit = Nanoseconds | Microseconds | Milliseconds | Seconds | Minutes | Hours | Days

  /** A `java.lang.Throwable`, reduced to its class and message. */
  datatype Throwable = Throwable(className: string, message: string)

}

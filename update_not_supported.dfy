/**
 * The error message a ServiceInstanceUpdateNotSupportedException carries:
 * a fixed prefix followed by the supplied message (null rendered as "null"),
 * with the error code, the instance-usable and update-repeatable flags and
 * the cause passed through unchanged.
 */
module UpdateNotSupported {
  import opened JavaLang

  const MessagePrefix := "Service instance update not supported: "

  /** The error body a broker exception reports to the platform. */
  datatype ErrorMessage = ErrorMessage(
    error: Nullable<string>,
    message: Nullable<string>,
    instanceUsable: Nullable<bool>,
    updateRepeatable: Nullable<bool>)

  /** A broker exception: its error body and its cause. */
  datatype BrokerException = BrokerException(errorMessage: ErrorMessage, cause: Nullable<Throwable>)

  /**
   * new ServiceInstanceUpdateNotSupportedException(errorCode, message,
   * instanceUsable, updateRepeatable, cause).
   */
  function UpdateNotSupportedException(
    errorCode: Nullable<string>, message: Nullable<string>,
    instanceUsable: Nullable<bool>, updateRepeatable: Nullable<bool>,
    cause: Nullable<Throwable>): (ex: BrokerException)
    ensures ex.errorMessage.message.NonNull?
    ensures |ex.errorMessage.message.value| == |MessagePrefix| + |Render(message)|
    ensures ex.errorMessage.message.value[..|MessagePrefix|] == MessagePrefix
    ensures ex.errorMessage.message.value[|MessagePrefix|..] == Render(message)
    ensures ex.errorMessage.error == errorCode
    ensures ex.errorMessage.instanceUsable == instanceUsable
    ensures ex.errorMessage.updateRepeatable == updateRepeatable
    ensures ex.cause == cause
  {
    BrokerException(ErrorMessage(errorCode, NonNull(MessagePrefix + Render(message)), instanceUsable, updateRepeatable), cause)
  }

  /** The text after the prefix, or None when the text does not start with the prefix. */
  function Detail(text: string): (d: Option<string>)
    ensures d.Some? <==> MessagePrefix <= text
    ensures d.Some? ==> text == MessagePrefix + d.value
  {
    if MessagePrefix <= text then Some(text[|MessagePrefix|..]) else None
  }

  /** The supplied message can be read back from the error message: the prefix is always there, the rendered message after it. */
  lemma MessageRoundTrip(errorCode: Nullable<string>, message: Nullable<string>,
                         instanceUsable: Nullable<bool>, updateRepeatable: Nullable<bool>, cause: Nullable<Throwable>)
    ensures Detail(UpdateNotSupportedException(errorCode, message, instanceUsable, updateRepeatable, cause).errorMessage.message.value)
            == Some(Render(message))
  {
    var text := UpdateNotSupportedException(errorCode, message, instanceUsable, updateRepeatable, cause).errorMessage.message.value;
    assert text == MessagePrefix + Render(message);
    assert (MessagePrefix + Render(message))[|MessagePrefix|..] == Render(message);
  }

  /** Different non-null messages give different error messages. */
  lemma DistinctMessagesStayDistinct(a: string, b: string, errorCode: Nullable<string>,
                                     instanceUsable: Nullable<bool>, updateRepeatable: Nullable<bool>, cause: Nullable<Throwable>)
    requires a != b
    ensures UpdateNotSupportedException(errorCode, NonNull(a), instanceUsable, updateRepeatable, cause)
         != UpdateNotSupportedException(errorCode, NonNull(b), instanceUsable, updateRepeatable, cause)
  {
    MessageRoundTrip(errorCode, NonNull(a), instanceUsable, updateRepeatable, cause);
    MessageRoundTrip(errorCode, NonNull(b), instanceUsable, updateRepeatable, cause);
  }

  /** A null message and the message "null" cannot be told apart once rendered. */
  lemma NullMessageReadsAsTextNull(errorCode: Nullable<string>, instanceUsable: Nullable<bool>,
                                   updateRepeatable: Nullable<bool>, cause: Nullable<Throwable>)
    ensures UpdateNotSupportedException(errorCode, Null, instanceUsable, updateRepeatable, cause)
         == UpdateNotSupportedException(errorCode, NonNull("null"), instanceUsable, updateRepeatable, cause)
  {
  }

  /** The exception built with every argument null: message "...: null", everything else null. */
  lemma AllNullArguments()
    ensures UpdateNotSupportedException(Null, Null, Null, Null, Null)
         == BrokerException(ErrorMessage(Null, NonNull("Service instance update not supported: null"), Null, Null), Null)
  {
    assert MessagePrefix + "null" == "Service instance update not supported: null";
  }

  /** The exception built with every argument set passes each through and appends "hello" to the prefix. */
  lemma AllArgumentsSet()
    ensures var cause := Throwable(RuntimeExceptionClass, NonNull("can't run"));
            var ex := UpdateNotSupportedException(NonNull("helloError"), NonNull("hello"), NonNull(true), NonNull(false), NonNull(cause));
            && ex.errorMessage == ErrorMessage(NonNull("helloError"), NonNull("Service instance update not supported: hello"), NonNull(true), NonNull(false))
            && ex.cause.NonNull? && ex.cause.value.className == RuntimeExceptionClass && ex.cause.value.message == NonNull("can't run")
  {
    assert MessagePrefix + "hello" == "Service instance update not supported: hello";
  }
}

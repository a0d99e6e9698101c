/**
 * The exceptions that can escape one iteration of the poll loop: the two
 * custom classes of exceptions.py that homework.py raises, the built-in
 * errors it raises or triggers, and the messaging library's error.
 */
module Exceptions {

  datatype Error =
    | EndpointException(message: string)     // exceptions.py, subclass of ErrorException
    | ParseStatusException(message: string)  // exceptions.py, subclass of ErrorException
    | TypeError(message: string)
    | KeyError(message: string)
    | AttributeError(message: string)
    | TelegramError(message: string)

  /**
   * `str(error)`, the text the loop compares with its error cache and sends.
   * A KeyError renders the repr of its argument, so its text is quoted; the
   * other classes render their message unchanged.
   */
  function Text(e: Error): (t: string)
    ensures !e.KeyError? ==> t == e.message
    ensures e.KeyError? ==> |t| == |e.message| + 2 && t[0] == '\'' && t[|t| - 1] == '\'' && t[1..|t| - 1] == e.message
    ensures t == "" <==> !e.KeyError? && e.message == ""
  {
    if e.KeyError? then "'" + e.message + "'" else e.message
  }
}

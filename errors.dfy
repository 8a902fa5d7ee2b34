/**
 * The failures of the engine. The source raises a bare Python exception at
 * each of these points; the model names each one after what went wrong.
 */
module Errors {

  datatype Error =
    | BothRedirections           // `<<` and `>>` on one line (ValueError)
    | MissingRedirectionOperand  // `words.pop()` on an emptied token list (IndexError)
    | MalformedRedirection       // the penultimate token is not the operator (ValueError)
    | UnknownInputStream         // a name absent from `in_streams` (KeyError)
    | UnknownOutputStream        // a name absent from `out_streams` (KeyError)
    | UnknownSession             // a name absent from `sessions` (KeyError)
    | EmptyCommand               // `words.pop(0)` on an empty token list (IndexError)
    | UnknownCommand             // a name absent from `commands` (KeyError)
    | UnregisteredParser         // a command absent from `parsers` (KeyError)
    | PermissionDenied           // the command needs a higher level (PermissionError)
    | ArgumentParseError         // the argument parser refused the tokens (ValueError)
    | HandlerExecutionError      // the command handler raised (RuntimeError)
    | ReturnHandlerError         // the session's return handler raised (RuntimeError)
    | ReaderNotMounted           // a ready reader no longer in `in_streams` (IndexError)
}

/** Option and Result, the failure-carrying values used throughout the model. */
module Wrappers {

  datatype Option<+T> = None | Some(value: T)

  datatype Result<+T, +E> = Success(value: T) | Failure(error: E)
}

/**
 * How one invocation of the tool ends. The program has no error values of its
 * own: every fault below is a `panic!` (or an `unwrap`/slice panic) in the
 * source, and every `Exited` is a `std::process::exit` with a message.
 */
module Faults {

  datatype Fault =
    | MissingFile(path: string)          // a helper read or remove on a path that does not exist
    | TemplateSliceOutOfRange            // `&contents[0..TIP.template.len()]` on a shorter text
    | NoSeparator                        // "Unable to find split pattern!"
    | NothingAfterSeparator              // `String::remove(0)` on the empty rest of the document
    | InvalidMetadata(text: string)      // serde_yaml could not deserialize the metadata block
    | EmptyCollection                    // `next_id` on a collection without tips
    | IdMissing                          // `unwrap` of a tip id that is `None`
    | IdNotFound(id: nat)                // update: no tip carries the id
    | BadIdArgument(text: string)        // update: `usize::from_str` rejected the argument
    | InvalidPattern(pattern: string)    // the regular expression does not compile
    | UnknownPart(part: string)          // list: "Part not implemented!"

  /** Completed is exit status 0; Exited is a deliberate `process::exit(code)`. */
  datatype Exit = Completed | Exited(code: int, message: string) | Panicked(fault: Fault)
}

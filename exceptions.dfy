/**
 * Python exceptions as values.  Every operation that can raise returns an
 * `Error` (or an `Option<Error>` when it has no other result), so that the
 * error paths of the pipeline are part of the model instead of preconditions.
 */
module Exceptions {

  datatype Option<+T> = None | Some(value: T)

  datatype Result<+T> = Ok(value: T) | Err(error: Error)

  /** The exceptions the modelled code raises or lets through. */
  datatype Error =
    | FileNotFound(path: seq<string>)      // FileNotFoundError naming a path
    | MissingResource(message: string)     // FileNotFoundError with a message naming no path
    | FileExists(path: seq<string>)        // FileExistsError from os.makedirs on a file
    | NotADirectory(path: seq<string>)     // NotADirectoryError
    | IsADirectory(path: seq<string>)      // IsADirectoryError
    | SameFile(path: seq<string>)          // shutil.SameFileError
    | KeyNotFound(key: string)             // KeyError
    | IndexOutOfRange                      // IndexError
    | ValueError(message: string)          // ValueError
    | AttributeError(attribute: string)    // AttributeError
    | YamlError(message: string)           // yaml.YAMLError from a malformed document
    | StageFailure(message: string)        // a plain Exception(message)
    | Custom(cause: Error)                 // CustomException wrapping another error
}

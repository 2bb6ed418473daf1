/**
 * The exceptions the modelled code raises (or lets escape), as values.
 * Each operation that can raise returns a `Result<_, Fault>` instead.
 */
module Faults {

  datatype Fault =
    | KeyError(key: string)                       // a mapping lookup of an absent key
    | AttributeError(name: string)                // an attribute never set, or a method the value lacks
    | TypeError(reason: string)
    | ValueError(reason: string)
    | UnboundLocal(name: string)                  // UnboundLocalError
    | FileNotFound(path: string)
    | NotImplemented                              // NotImplementedError
    | StackDoesNotExist(stackName: string)        // CFStackDoesNotExistError
    | StackLookup                                 // StackLookupException
    | TemplateTooLarge                            // CFTemplateTooLargeError
    | ClientError(code: string, message: string)  // a provider error that is re-raised
    | ParamValidation(name: string)               // botocore's check of a request argument, before anything is sent
}

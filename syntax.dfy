/**
 * Helpers that live in modules of the system outside this model (its syntax
 * utilities and its API explorer). They are given to the model as function
 * values, so every statement about them holds whatever they compute.
 */
module Syntax {
  import opened Wrappers

  datatype Helpers = Helpers(
    /** turns each line of a text into a `//` comment */
    commentOut: string -> string,
    /** normalises a doc comment into `//` lines */
    trimAndCombineDocComment: string -> string,
    /** turns a package name into an identifier usable in `let <name> = require(...)` */
    sanitizePackageName: string -> string,
    /** closes unbalanced brackets; `None` when the text cannot be parsed (JavaScript `undefined`) */
    closeBrackets: string -> Option<string>,
    /** cuts trailing boilerplate off a model completion */
    trimCompletion: string -> string)
}

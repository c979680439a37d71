/** Calls into the compiled WebAssembly. */
module Ccall {

  /** What a `ccall` with a string result gives back: the string it
      returned, or the text of the exception it threw as a template
      literal renders it. The compiled code itself is not modelled, so
      this is an input to whatever handles the call. */
  datatype CallResult = Returned(value: string) | Threw(message: string)
}

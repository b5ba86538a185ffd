/** The exceptions that can escape the skill pipeline, by Python class. */
module Errors {

  datatype Error =
    /** Raised by the pipeline's own checks (frontmatter, schema, unknown skill, unknown role). */
    | ValueError(msg: string)
    /** A missing SKILL.md. */
    | FileNotFoundError(msg: string)
    /** Raised by the YAML parser on malformed YAML. */
    | YamlError
    /** Raised by Python itself on an ill-typed frontmatter value (len() of a number, re.match on a list). */
    | TypeError(msg: string)
    /** Raised by Python itself when a method is missing on a value. */
    | AttributeError(msg: string)
    /** A missing key in a conversation-history dict. */
    | KeyError(key: string)
    /** Reading a directory as a file, or listing a file as a directory. */
    | OSError(msg: string)
    /** Whatever the completion backend raises, passed through unchanged. */
    | BackendError(detail: string)

  /** `str(e)`: the text an exception prints as. */
  function Message(e: Error): string
  {
    match e
    case ValueError(m) => m
    case FileNotFoundError(m) => m
    case YamlError => "malformed YAML frontmatter"
    case TypeError(m) => m
    case AttributeError(m) => m
    case KeyError(k) => "'" + k + "'"
    case OSError(m) => m
    case BackendError(d) => d
  }
}

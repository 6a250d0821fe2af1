/** The declarative command definitions of src/command/types.rs, as plain values.
    Deserialisation (field renames, defaults) belongs to the YAML parser and is
    not modelled: a `Command` here is one that has already been parsed. */
module CommandTypes {

  import opened Wrappers

  /** One input field of a command. `paramType` is the YAML `type` key, kept as
      free text because the source never interprets it. */
  datatype Parameter = Parameter(
    name: string,
    paramType: string,
    description: string,
    required: bool,
    default: Option<string>
  )

  /** One loaded tool. `prompt` is returned to the client verbatim. */
  datatype Command = Command(
    name: string,
    version: string,
    description: string,
    parameters: seq<Parameter>,
    prompt: string
  )
}

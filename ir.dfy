/** The intermediate representation that the current parser builds and the
    Arduino code generator consumes. */
module Ir {
  import opened Text

  /** One command of a section: a movement with its kind ("forward",
      "direction", ...) and a signed 32-bit amount, or a call of a label (`label` in the source; a reserved word here). */
  datatype Command =
    | Move(kind: string, amount: i32)
    | Jump(target: string)

  /** A named block of commands, kept in source order; it may be empty. */
  datatype Section = Section(name: string, commands: seq<Command>)

  /** The sections in source order. Names need not be distinct. */
  datatype Program = Program(sections: seq<Section>)
}

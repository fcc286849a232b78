/**
 * The indent-aware text sink (`FormatWriter`) the formatters write to. It is
 * an external collaborator; the model records each call as a token. A line
 * break records the indent level in force when it was written, which is
 * what the sink uses to indent the following line. Colour hints are not
 * recorded.
 */
module Sink {

  datatype Token =
    | Field(text: string)    // WriteField: a delimited field
    | Text(text: string)     // WriteText: raw text
    | Line(indent: int)      // WriteLine
    | EndLine(indent: int)   // WriteEndLine, used before block closers
    | Spaces(count: nat)     // WriteSpaces

  class FormatWriter {
    var IndentLevel: int
    var tokens: seq<Token>
    const FieldDelimiter: string

    constructor (delimiter: string)
      ensures IndentLevel == 0 && tokens == [] && FieldDelimiter == delimiter
    {
      IndentLevel := 0;
      tokens := [];
      FieldDelimiter := delimiter;
    }

    method WriteField(s: string)
      modifies this
      ensures tokens == old(tokens) + [Field(s)] && IndentLevel == old(IndentLevel)
    {
      tokens := tokens + [Field(s)];
    }

    method WriteText(s: string)
      modifies this
      ensures tokens == old(tokens) + [Text(s)] && IndentLevel == old(IndentLevel)
    {
      tokens := tokens + [Text(s)];
    }

    method WriteLine()
      modifies this
      ensures tokens == old(tokens) + [Line(old(IndentLevel))] && IndentLevel == old(IndentLevel)
    {
      tokens := tokens + [Line(IndentLevel)];
    }

    method WriteEndLine()
      modifies this
      ensures tokens == old(tokens) + [EndLine(old(IndentLevel))] && IndentLevel == old(IndentLevel)
    {
      tokens := tokens + [EndLine(IndentLevel)];
    }

    method WriteSpaces(n: nat)
      modifies this
      ensures tokens == old(tokens) + [Spaces(n)] && IndentLevel == old(IndentLevel)
    {
      tokens := tokens + [Spaces(n)];
    }
  }
}

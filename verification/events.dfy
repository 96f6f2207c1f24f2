/** The structural events an XML tokenizer delivers to the converter's
    callbacks, in document order. */
module Events {
  import opened CRuntime

  /** One attribute of a start tag: the name and the value, as the
      alternating name/value array handed to a start-element handler. */
  datatype Attr = Attr(name: string, value: string)

  /** Some attribute of a start tag has this name.  A well-formed start tag
      names each attribute at most once. */
  predicate Named(attrs: seq<Attr>, name: string) {
    exists i :: 0 <= i < |attrs| && attrs[i].name == name
  }

  datatype Event =
    | Open(name: string, attrs: seq<Attr>)   // start-element handler
    | Close(name: string)                    // end-element handler
    | Text(chars: string)                    // character-data handler

  /** Character data delivered in several pieces. */
  function Texts(frags: seq<string>): seq<Event>
    decreases |frags|
  {
    if frags == [] then [] else Texts(frags[..|frags| - 1]) + [Text(frags[|frags| - 1])]
  }

  /** The text of several pieces, in order. */
  function Concat(frags: seq<string>): string
    decreases |frags|
  {
    if frags == [] then [] else Concat(frags[..|frags| - 1]) + frags[|frags| - 1]
  }

  /** Character data made of bytes, as the tokenizer hands it over. */
  predicate AllBytes(frags: seq<string>) {
    forall i :: 0 <= i < |frags| ==> IsBytes(frags[i])
  }
}

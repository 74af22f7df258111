/** Colour tokens of a skin and their resolution to terminal colours
    (internal/config/styles.go, types Color and Colors). */
module ColorResolution {

  /** A terminal colour as the terminal library numbers it. */
  type TermColor = int

  /** What resolution consults in the terminal library. These belong to the
      library, not to the skin code, so the model takes them as given. */
  datatype Terminal = Terminal(
    colorDefault: TermColor,             // the library's "terminal default" colour
    colorNames: map<string, TermColor>,  // the library's table of named colours
    getColor: string -> TermColor)       // the library's generic colour parser

  /** A colour as written in a skin: a colour name, a hex code, "default", "-". */
  datatype Color = Color(token: string) {

    /** The token back as text. */
    function String(): (s: string)
      ensures Color(s) == this
    {
      token
    }

    /** The token holds some text. */
    predicate IsSet() {
      token != ""
    }

    /** Resolution to a terminal colour: the reserved token first, then the
        library's name table, and only then the generic parser. */
    function Resolve(t: Terminal): (r: TermColor)
      ensures this == DefaultColor ==> r == t.colorDefault
      ensures this != DefaultColor && token in t.colorNames ==> r == t.colorNames[token]
      ensures this != DefaultColor && token !in t.colorNames ==> r == t.getColor(token)
    {
      if this == DefaultColor then t.colorDefault
      else if String() in t.colorNames then t.colorNames[String()]
      else t.getColor(String())
    }
  }

  /** The reserved token for the terminal's default colour. */
  const DefaultColor := Color("default")

  /** The token the skins use for the terminal background. */
  const TransparentColor := Color("-")

  /** A palette: an ordered list of colours, duplicates allowed. */
  type Colors = seq<Color>

  /** The palette is non-empty and every colour in it holds some text. */
  predicate AllSet(cs: Colors) {
    |cs| > 0 && forall i :: 0 <= i < |cs| ==> cs[i].IsSet()
  }

  /** Wraps a text as a colour; the text comes back unchanged. */
  function NewColor(c: string): (r: Color)
    ensures r.String() == c
  {
    Color(c)
  }

  /** Resolves a whole palette, keeping its order and its length. */
  method ResolveAll(t: Terminal, cs: Colors) returns (cc: seq<TermColor>)
    ensures |cc| == |cs|
    ensures forall i :: 0 <= i < |cs| ==> cc[i] == cs[i].Resolve(t)
  {
    cc := [];
    for i := 0 to |cs|
      invariant |cc| == i
      invariant forall j :: 0 <= j < i ==> cc[j] == cs[j].Resolve(t)
    {
      cc := cc + [cs[i].Resolve(t)];
    }
  }

  /** Wrapping a colour's text gives the same colour back. */
  lemma ColorRoundTrip(c: Color)
    ensures NewColor(c.String()) == c
  {
  }

  /** The reserved token never consults the name table or the parser: two
      terminals that agree on their default colour resolve it alike, whatever
      their tables say, even about the name "default" itself. */
  lemma DefaultIgnoresNameTable(t1: Terminal, t2: Terminal)
    requires t1.colorDefault == t2.colorDefault
    ensures DefaultColor.Resolve(t1) == DefaultColor.Resolve(t2)
  {
  }

  /** Only tokens that are neither reserved nor named reach the parser: two
      terminals that differ only in their parsers resolve a colour differently
      only if that colour falls through to the parser. */
  lemma ParserOnlyForUnnamed(c: Color, t1: Terminal, t2: Terminal)
    requires t1.colorDefault == t2.colorDefault && t1.colorNames == t2.colorNames
    ensures c.Resolve(t1) != c.Resolve(t2) ==>
              c != DefaultColor && c.token !in t1.colorNames && t1.getColor(c.token) != t2.getColor(c.token)
  {
  }

  /** A named token resolves to its table entry, whatever the parser says:
      terminals that share the default colour and the name table resolve it
      alike, however their parsers differ. */
  lemma NameTableShadowsParser(c: Color, t1: Terminal, t2: Terminal)
    requires t1.colorDefault == t2.colorDefault && t1.colorNames == t2.colorNames
    requires c != DefaultColor && c.token in t1.colorNames
    ensures c.Resolve(t1) == c.Resolve(t2) == t1.colorNames[c.token]
  {
  }

  /** The transparent token has no rule of its own here: it goes through the
      name table and the parser like any other name. */
  lemma TransparentIsNotReserved(t: Terminal)
    ensures TransparentColor.Resolve(t) ==
              if "-" in t.colorNames then t.colorNames["-"] else t.getColor("-")
  {
  }
}

/** The chat format tables (pymine/data/formats.py): the formatting codes of chat text
    with their names, the inverse table from names back to codes, and the ANSI terminal
    escape that renders each code.

    The 22 rows the three tables share are the constructors of ChatFormat. The module
    FormatRows gives a row's code, name and SGR parameter and reads each back; the
    module Formats builds the three tables from the rows. */
module FormatRows {
  import opened Python

  /** The formats in the tables' order: sixteen colours, then the obfuscated, bold,
      strikethrough, underlined and italic styles, and reset. */
  datatype ChatFormat =
    | Black
    | DarkBlue
    | DarkGreen
    | DarkAqua
    | DarkRed
    | DarkPurple
    | Gold
    | Gray
    | DarkGray
    | Blue
    | Green
    | Aqua
    | Red
    | LightPurple
    | Yellow
    | White
    | Obfuscated
    | Bold
    | Strikethrough
    | Underlined
    | Italic
    | Reset

  /** A format's code: its key in `FORMAT_BY_CODE` and in `TERMINAL_CODES`. */
  function Code(f: ChatFormat): (r: string)
    ensures |r| == 1 && r[0] == CodeChar(f)
  {
    [CodeChar(f)]
  }

  /** The one character of a format's code. */
  function CodeChar(f: ChatFormat): char
  {
    match f
    case Black => '0'
    case DarkBlue => '1'
    case DarkGreen => '2'
    case DarkAqua => '3'
    case DarkRed => '4'
    case DarkPurple => '5'
    case Gold => '6'
    case Gray => '7'
    case DarkGray => '8'
    case Blue => '9'
    case Green => 'a'
    case Aqua => 'b'
    case Red => 'c'
    case LightPurple => 'd'
    case Yellow => 'e'
    case White => 'f'
    case Obfuscated => 'k'
    case Bold => 'l'
    case Strikethrough => 'm'
    case Underlined => 'n'
    case Italic => 'o'
    case Reset => 'r'
  }

  /** A format's name: its value in `FORMAT_BY_CODE`. */
  function Name(f: ChatFormat): string
  {
    match f
    case Black => "black"
    case DarkBlue => "dark_blue"
    case DarkGreen => "dark_green"
    case DarkAqua => "dark_aqua"
    case DarkRed => "dark_red"
    case DarkPurple => "dark_purple"
    case Gold => "gold"
    case Gray => "gray"
    case DarkGray => "dark_gray"
    case Blue => "blue"
    case Green => "green"
    case Aqua => "aqua"
    case Red => "red"
    case LightPurple => "light_purple"
    case Yellow => "yellow"
    case White => "white"
    case Obfuscated => "obfuscated"
    case Bold => "bold"
    case Strikethrough => "strikethrough"
    case Underlined => "underlined"
    case Italic => "italic"
    case Reset => "reset"
  }

  /** The Select Graphic Rendition parameter `TERMINAL_CODES` gives a format: the
      foreground colours 30-37 and 90-97, blink (5, standing in for obfuscated), bold,
      crossed-out, underline, italic and reset. */
  function SgrParameter(f: ChatFormat): nat
  {
    match f
    case Black => 30
    case DarkBlue => 34
    case DarkGreen => 32
    case DarkAqua => 36
    case DarkRed => 31
    case DarkPurple => 35
    case Gold => 33
    case Gray => 37
    case DarkGray => 90
    case Blue => 94
    case Green => 92
    case Aqua => 96
    case Red => 91
    case LightPurple => 95
    case Yellow => 93
    case White => 97
    case Obfuscated => 5
    case Bold => 1
    case Strikethrough => 9
    case Underlined => 4
    case Italic => 3
    case Reset => 0
  }

  /** The format whose code is the given character, if any. */
  function FormatOfCodeChar(c: char): Option<ChatFormat>
  {
    if c == '0' then Some(Black) else
    if c == '1' then Some(DarkBlue) else
    if c == '2' then Some(DarkGreen) else
    if c == '3' then Some(DarkAqua) else
    if c == '4' then Some(DarkRed) else
    if c == '5' then Some(DarkPurple) else
    if c == '6' then Some(Gold) else
    if c == '7' then Some(Gray) else
    if c == '8' then Some(DarkGray) else
    if c == '9' then Some(Blue) else
    if c == 'a' then Some(Green) else
    if c == 'b' then Some(Aqua) else
    if c == 'c' then Some(Red) else
    if c == 'd' then Some(LightPurple) else
    if c == 'e' then Some(Yellow) else
    if c == 'f' then Some(White) else
    if c == 'k' then Some(Obfuscated) else
    if c == 'l' then Some(Bold) else
    if c == 'm' then Some(Strikethrough) else
    if c == 'n' then Some(Underlined) else
    if c == 'o' then Some(Italic) else
    if c == 'r' then Some(Reset) else
    None
  }

  /** The format with the given code, if any. */
  function FormatOf(code: string): Option<ChatFormat>
  {
    if |code| == 1 then FormatOfCodeChar(code[0]) else None
  }

  /** Length, first and last character: enough to tell the 22 names apart. */
  function Signature(s: string): (int, char, char)
  {
    if |s| == 0 then (0, ' ', ' ') else (|s|, s[0], s[|s| - 1])
  }

  /** The format whose name has the given signature, if any. */
  function FormatOfSignature(sig: (int, char, char)): Option<ChatFormat>
  {
    if sig == (5, 'b', 'k') then Some(Black) else
    if sig == (9, 'd', 'e') then Some(DarkBlue) else
    if sig == (10, 'd', 'n') then Some(DarkGreen) else
    if sig == (9, 'd', 'a') then Some(DarkAqua) else
    if sig == (8, 'd', 'd') then Some(DarkRed) else
    if sig == (11, 'd', 'e') then Some(DarkPurple) else
    if sig == (4, 'g', 'd') then Some(Gold) else
    if sig == (4, 'g', 'y') then Some(Gray) else
    if sig == (9, 'd', 'y') then Some(DarkGray) else
    if sig == (4, 'b', 'e') then Some(Blue) else
    if sig == (5, 'g', 'n') then Some(Green) else
    if sig == (4, 'a', 'a') then Some(Aqua) else
    if sig == (3, 'r', 'd') then Some(Red) else
    if sig == (12, 'l', 'e') then Some(LightPurple) else
    if sig == (6, 'y', 'w') then Some(Yellow) else
    if sig == (5, 'w', 'e') then Some(White) else
    if sig == (10, 'o', 'd') then Some(Obfuscated) else
    if sig == (4, 'b', 'd') then Some(Bold) else
    if sig == (13, 's', 'h') then Some(Strikethrough) else
    if sig == (10, 'u', 'd') then Some(Underlined) else
    if sig == (6, 'i', 'c') then Some(Italic) else
    if sig == (5, 'r', 't') then Some(Reset) else
    None
  }

  /** The format with the given name, if any. */
  function FormatNamed(name: string): Option<ChatFormat>
  {
    match FormatOfSignature(Signature(name))
    case Some(f) => if Name(f) == name then Some(f) else None
    case None => None
  }

  /** A format's position in the tables. */
  function Ord(f: ChatFormat): nat
  {
    match f
    case Black => 0
    case DarkBlue => 1
    case DarkGreen => 2
    case DarkAqua => 3
    case DarkRed => 4
    case DarkPurple => 5
    case Gold => 6
    case Gray => 7
    case DarkGray => 8
    case Blue => 9
    case Green => 10
    case Aqua => 11
    case Red => 12
    case LightPurple => 13
    case Yellow => 14
    case White => 15
    case Obfuscated => 16
    case Bold => 17
    case Strikethrough => 18
    case Underlined => 19
    case Italic => 20
    case Reset => 21
  }

  /** The format at a position. */
  function FormatAt(i: nat): ChatFormat
  {
    if i == 0 then Black else
    if i == 1 then DarkBlue else
    if i == 2 then DarkGreen else
    if i == 3 then DarkAqua else
    if i == 4 then DarkRed else
    if i == 5 then DarkPurple else
    if i == 6 then Gold else
    if i == 7 then Gray else
    if i == 8 then DarkGray else
    if i == 9 then Blue else
    if i == 10 then Green else
    if i == 11 then Aqua else
    if i == 12 then Red else
    if i == 13 then LightPurple else
    if i == 14 then Yellow else
    if i == 15 then White else
    if i == 16 then Obfuscated else
    if i == 17 then Bold else
    if i == 18 then Strikethrough else
    if i == 19 then Underlined else
    if i == 20 then Italic else
    Reset
  }

  lemma OrdInverse(f: ChatFormat)
    ensures Ord(f) < 22 && FormatAt(Ord(f)) == f
  {
  }

  lemma AtInverse(i: nat)
    requires i < 22
    ensures Ord(FormatAt(i)) == i
  {
  }

  /** A code is one character, and that character determines the format. */
  lemma CodeDetermines(f: ChatFormat)
    ensures FormatOf(Code(f)) == Some(f)
  {
    CodeCharDetermines(f);
  }

  lemma CodeCharDetermines(f: ChatFormat)
    ensures FormatOfCodeChar(CodeChar(f)) == Some(f)
  {
  }

  /** A name's signature determines the format. */
  lemma NameDetermines(f: ChatFormat)
    ensures FormatOfSignature(Signature(Name(f))) == Some(f)
  {
    OrdInverse(f);
    if Ord(f) < 6 {
      NameDeterminesPart1(f);
    } else if Ord(f) < 12 {
      NameDeterminesPart2(f);
    } else if Ord(f) < 17 {
      NameDeterminesPart3(f);
    } else {
      NameDeterminesPart4(f);
    }
  }

  // NameDetermines for a few formats at a time, which keeps each proof small.

  lemma NameDeterminesPart1(f: ChatFormat)
    requires Ord(f) < 6
    ensures FormatOfSignature(Signature(Name(f))) == Some(f)
  {
  }

  lemma NameDeterminesPart2(f: ChatFormat)
    requires 6 <= Ord(f) < 12
    ensures FormatOfSignature(Signature(Name(f))) == Some(f)
  {
  }

  lemma NameDeterminesPart3(f: ChatFormat)
    requires 12 <= Ord(f) < 17
    ensures FormatOfSignature(Signature(Name(f))) == Some(f)
  {
  }

  lemma NameDeterminesPart4(f: ChatFormat)
    requires 17 <= Ord(f)
    ensures FormatOfSignature(Signature(Name(f))) == Some(f)
  {
  }

  lemma NameFound(f: ChatFormat)
    ensures FormatNamed(Name(f)) == Some(f)
  {
    NameDetermines(f);
  }

  lemma CodesInjective()
    ensures forall f, g :: Code(f) == Code(g) ==> f == g
  {
    forall f, g | Code(f) == Code(g)
      ensures f == g
    {
      CodeDetermines(f);
      CodeDetermines(g);
    }
  }

  lemma NamesInjective()
    ensures forall f, g :: Name(f) == Name(g) ==> f == g
  {
    forall f, g | Name(f) == Name(g)
      ensures f == g
    {
      NameDetermines(f);
      NameDetermines(g);
    }
  }
}

module Formats {
  import opened Python
  import opened Unicode
  import opened FormatRows

  /** A format's value in `TERMINAL_CODES`: ESC '[' parameter 'm'. */
  function Terminal(f: ChatFormat): string
  {
    "\U{1B}[" + NatDecimal(SgrParameter(f)) + "m"
  }


  /** Every format. */
  const FORMATS: set<ChatFormat> := Image(FormatAt, Upto(22))

  lemma Listed(f: ChatFormat)
    ensures f in FORMATS
  {
    OrdInverse(f);
    assert Ord(f) in Upto(22);
  }

  lemma FormatCount()
    ensures |FORMATS| == 22
  {
    forall i: nat, j: nat | i < 22 && j < 22 && FormatAt(i) == FormatAt(j)
      ensures i == j
    {
      AtInverse(i);
      AtInverse(j);
    }
    InjectiveImageSize(FormatAt, 22);
  }

  function Codes(): set<string>
  {
    set f | f in FORMATS :: Code(f)
  }

  function Names(): set<string>
  {
    set f | f in FORMATS :: Name(f)
  }

  lemma CodesKnown()
    ensures forall c :: c in Codes() ==> FormatOf(c).Some? && Code(FormatOf(c).value) == c
  {
    forall c | c in Codes()
      ensures FormatOf(c).Some? && Code(FormatOf(c).value) == c
    {
      var f :| f in FORMATS && Code(f) == c;
      CodeDetermines(f);
    }
  }

  lemma NamesKnown()
    ensures forall n :: n in Names() ==> FormatNamed(n).Some? && Name(FormatNamed(n).value) == n
  {
    forall n | n in Names()
      ensures FormatNamed(n).Some? && Name(FormatNamed(n).value) == n
    {
      var f :| f in FORMATS && Name(f) == n;
      NameFound(f);
    }
  }

  // ---------------------------------------------------------------------------
  // The tables

  /** `FORMAT_BY_CODE`: code to name. */
  function FormatByCode(): map<string, string>
  {
    CodesKnown();
    map c | c in Codes() :: Name(FormatOf(c).value)
  }

  /** `FORMAT_BY_NAME`, the comprehension `{v: k for k, v in FORMAT_BY_CODE.items()}`:
      name to code. ByNameInverts shows it is that comprehension's result. */
  function FormatByName(): map<string, string>
  {
    NamesKnown();
    map n | n in Names() :: Code(FormatNamed(n).value)
  }

  /** `TERMINAL_CODES`: code to escape. */
  function TerminalCodes(): map<string, string>
  {
    CodesKnown();
    map c | c in Codes() :: Terminal(FormatOf(c).value)
  }

  /** Each format's row: its code gives its name and its escape, its name its code. */
  lemma Row(f: ChatFormat)
    ensures Code(f) in FormatByCode() && FormatByCode()[Code(f)] == Name(f)
    ensures Code(f) in TerminalCodes() && TerminalCodes()[Code(f)] == Terminal(f)
    ensures Name(f) in FormatByName() && FormatByName()[Name(f)] == Code(f)
  {
    Listed(f);
    CodeDetermines(f);
    NameFound(f);
  }

  /** Every key of `FORMAT_BY_CODE` or `TERMINAL_CODES` is a format's code. */
  lemma CodeListed(c: string) returns (f: ChatFormat)
    requires c in FormatByCode() || c in TerminalCodes()
    ensures Code(f) == c
  {
    f :| f in FORMATS && Code(f) == c;
  }

  /** Every key of `FORMAT_BY_NAME` is a format's name. */
  lemma NameListed(n: string) returns (f: ChatFormat)
    requires n in FormatByName()
    ensures Name(f) == n
  {
    f :| f in FORMATS && Name(f) == n;
  }

  /** `FORMAT_BY_NAME` is the comprehension over `FORMAT_BY_CODE`'s items: its keys are
      exactly the values of `FORMAT_BY_CODE`, each mapped to the code it came from. */
  lemma ByNameInverts(name: string)
    ensures name in FormatByName() <==> exists c :: c in FormatByCode() && FormatByCode()[c] == name
    ensures forall c :: c in FormatByCode() && FormatByCode()[c] == name ==> FormatByName()[name] == c
  {
    forall c | c in FormatByCode() && FormatByCode()[c] == name
      ensures name in FormatByName() && FormatByName()[name] == c
    {
      var f := CodeListed(c);
      Row(f);
    }
    if name in FormatByName() {
      var f := NameListed(name);
      Row(f);
    }
  }

  /** Looking a code's name up in `FORMAT_BY_NAME` gives the code back. */
  lemma CodeNameCode(code: string)
    requires code in FormatByCode()
    ensures FormatByCode()[code] in FormatByName()
    ensures FormatByName()[FormatByCode()[code]] == code
  {
    var f := CodeListed(code);
    Row(f);
  }

  /** Looking a name's code up in `FORMAT_BY_CODE` gives the name back: no two formats
      share a name. */
  lemma NameCodeName(name: string)
    requires name in FormatByName()
    ensures FormatByName()[name] in FormatByCode()
    ensures FormatByCode()[FormatByName()[name]] == name
  {
    var f := NameListed(name);
    Row(f);
  }

  /** The terminal table is defined on exactly the codes `FORMAT_BY_CODE` has. */
  lemma TerminalKeys()
    ensures TerminalCodes().Keys == FormatByCode().Keys
  {
  }

  lemma {:induction false} CodeImageSize(s: set<ChatFormat>)
    ensures |set f | f in s :: Code(f)| == |s|
  {
    if s != {} {
      var x :| x in s;
      var rest := s - {x};
      CodeImageSize(rest);
      CodesInjective();
      var before := set f | f in rest :: Code(f);
      assert (set f | f in s :: Code(f)) == before + {Code(x)};
      assert before * {Code(x)} == {};
    }
  }

  lemma {:induction false} NameImageSize(s: set<ChatFormat>)
    ensures |set f | f in s :: Name(f)| == |s|
  {
    if s != {} {
      var x :| x in s;
      var rest := s - {x};
      NameImageSize(rest);
      NamesInjective();
      var before := set f | f in rest :: Name(f);
      assert (set f | f in s :: Name(f)) == before + {Name(x)};
      assert before * {Name(x)} == {};
    }
  }

  /** Both tables have 22 entries: no code and no name is listed twice. */
  lemma TableSizes()
    ensures |FormatByCode()| == 22 && |FormatByName()| == 22
  {
    FormatCount();
    CodeImageSize(FORMATS);
    NameImageSize(FORMATS);
    assert FormatByCode().Keys == Codes();
    assert FormatByName().Keys == Names();
  }

  /** An SGR escape: ESC, '[', one or more decimal digits, 'm'. */
  predicate IsSgr(s: string)
  {
    |s| >= 4 && s[0] == '\U{1B}' && s[1] == '[' && s[|s| - 1] == 'm' &&
    forall i :: 2 <= i < |s| - 1 ==> '0' <= s[i] <= '9'
  }

  /** The escape for any SGR parameter has SGR form. */
  lemma SgrEscape(n: nat)
    ensures IsSgr("\U{1B}[" + NatDecimal(n) + "m")
  {
    var digits := NatDecimal(n);
    NatDecimalDigits(n);
    var s := "\U{1B}[" + digits + "m";
    forall i | 2 <= i < |s| - 1
      ensures '0' <= s[i] <= '9'
    {
      assert s[i] == digits[i - 2];
    }
  }

  /** Every terminal code is an SGR escape. */
  lemma TerminalCodesAreSgr(code: string)
    requires code in TerminalCodes()
    ensures IsSgr(TerminalCodes()[code])
  {
    var f := CodeListed(code);
    Row(f);
    SgrEscape(SgrParameter(f));
  }
}

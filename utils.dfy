/**
 * The category helpers of src/lib/utils.ts: `getCategoryLabel`, which
 * capitalises a category name for display, and `getCategoryEmoji`, the
 * icon shown next to a category.
 *
 * `toUpperCase` is modelled for the Basic Latin and Latin-1 letters, where it
 * differs from the identity in four ways: a to z and the Latin-1 small letters
 * move up by 32, the sharp s becomes "SS" (the only case that changes the
 * length), and y with diaeresis and the micro sign map outside Latin-1.
 */
module Utils {
  import opened Wrappers
  import opened Types

  /** A character `UpperChar` leaves as it is. */
  predicate IsUpperFixed(c: char)
  {
    !('a' <= c <= 'z') && !('\U{E0}' <= c <= '\U{FE}' && c != '\U{F7}') &&
    c != '\U{DF}' && c != '\U{FF}' && c != '\U{B5}'
  }

  /** `toUpperCase` on a one-character string. */
  function UpperChar(c: char): (r: string)
    ensures |r| == (if c == '\U{DF}' then 2 else 1)
    ensures IsUpperFixed(c) <==> r == [c]
    ensures forall k :: 0 <= k < |r| ==> IsUpperFixed(r[k])
  {
    if 'a' <= c <= 'z' || ('\U{E0}' <= c <= '\U{FE}' && c != '\U{F7}') then [(c as int - 32) as char]
    else if c == '\U{DF}' then "SS"
    else if c == '\U{FF}' then ['\U{178}']
    else if c == '\U{B5}' then ['\U{39C}']
    else [c]
  }

  /** `s.charAt(0).toUpperCase() + s.slice(1)`. */
  function CapitalizeFirst(s: string): (r: string)
    ensures s == "" ==> r == ""
    ensures s != "" ==> |r| == |UpperChar(s[0])| + |s| - 1
    ensures s != "" ==> r[..|UpperChar(s[0])|] == UpperChar(s[0]) && r[|UpperChar(s[0])|..] == s[1..]
  {
    if s == "" then "" else UpperChar(s[0]) + s[1..]
  }

  /**
   * On ASCII text only the first character changes: a small letter becomes
   * its capital, the length stays and the rest is unchanged.
   */
  lemma CapitalizeAscii(s: string)
    requires s != "" && s[0] < '\U{80}'
    ensures |CapitalizeFirst(s)| == |s|
    ensures CapitalizeFirst(s)[1..] == s[1..]
    ensures CapitalizeFirst(s)[0] == (if 'a' <= s[0] <= 'z' then (s[0] as int - 32) as char else s[0])
  {
  }

  /** Capitalising twice is capitalising once. */
  lemma CapitalizeIdempotent(s: string)
    ensures CapitalizeFirst(CapitalizeFirst(s)) == CapitalizeFirst(s)
  {
    if s != "" {
      var u := UpperChar(s[0]);
      var r := CapitalizeFirst(s);
      assert r == u + s[1..];
      assert r[0] == u[0] && IsUpperFixed(u[0]);
      assert r[1..] == u[1..] + s[1..];
    }
  }

  /** Capitalising keeps the length, except that a leading sharp s becomes two letters. */
  lemma CapitalizeLength(s: string)
    ensures |CapitalizeFirst(s)| == |s| + (if s != "" && s[0] == '\U{DF}' then 1 else 0)
  {
  }

  /** `getCategoryLabel`. */
  function CategoryLabel(c: Category): string
  {
    CapitalizeFirst(CategoryName(c))
  }

  /** Each category's label is its name with a capital first letter. */
  lemma CategoryLabels()
    ensures CategoryLabel(Legs) == "Legs" && CategoryLabel(Back) == "Back"
    ensures CategoryLabel(Chest) == "Chest" && CategoryLabel(Shoulders) == "Shoulders"
    ensures CategoryLabel(Arms) == "Arms" && CategoryLabel(Core) == "Core"
    ensures CategoryLabel(Cardio) == "Cardio" && CategoryLabel(Sports) == "Sports"
  {
  }

  /** A label keeps the name's length and everything after its first letter. */
  lemma CategoryLabelShape(c: Category)
    ensures |CategoryLabel(c)| == |CategoryName(c)|
    ensures CategoryLabel(c)[1..] == CategoryName(c)[1..]
    ensures 'A' <= CategoryLabel(c)[0] <= 'Z'
  {
    CapitalizeAscii(CategoryName(c));
  }

  /**
   * `getCategoryEmoji`, as intended: the icon of a category, from a record
   * that has no entry for Cardio and Sports (the function returns
   * `undefined` for them).
   */
  function CategoryEmoji(c: Category): (r: Option<string>)
    ensures r.Some? <==> c != Cardio && c != Sports
  {
    match c
    case Legs => Some("\U{1F9B5}")
    case Back => Some("\U{1F519}")
    case Chest => Some("\U{1F4AA}")
    case Shoulders => Some("\U{1F3CB}\U{FE0F}")
    case Arms => Some("\U{1F4AA}")
    case Core => Some("\U{1F3AF}")
    case Cardio => None
    case Sports => None
  }

  /** Each intended icon is one pictograph, possibly followed by the emoji variation selector. */
  lemma IconsArePictographs(c: Category)
    requires CategoryEmoji(c).Some?
    ensures var icon := CategoryEmoji(c).value;
            && 1 <= |icon| <= 2
            && '\U{1F300}' <= icon[0] <= '\U{1FAFF}'
            && (|icon| == 2 ==> icon[1] == '\U{FE0F}')
  {
  }

  /**
   * Chest and Arms share an icon, and they are the only two categories with
   * an icon in common.
   */
  lemma EmojiCollisions(a: Category, b: Category)
    ensures a != b && CategoryEmoji(a).Some? && CategoryEmoji(a) == CategoryEmoji(b) <==>
            (a == Chest && b == Arms) || (a == Arms && b == Chest)
  {
  }

  // The icon literals of src/lib/utils.ts are not the emoji themselves: each
  // is the UTF-8 encoding of the emoji read back as Windows-1254 (Turkish)
  // text, with the bytes that code page leaves undefined dropped.

  /** The UTF-8 encoding of one character. */
  function Utf8(c: char): (r: seq<int>)
    ensures 1 <= |r| <= 4
    ensures forall k :: 0 <= k < |r| ==> 0 <= r[k] < 256
    ensures (c as int < 0x80) <==> |r| == 1
  {
    var n := c as int;
    if n < 0x80 then [n]
    else if n < 0x800 then [0xC0 + n / 64, 0x80 + n % 64]
    else if n < 0x10000 then [0xE0 + n / 4096, 0x80 + n / 64 % 64, 0x80 + n % 64]
    else [0xF0 + n / 0x40000, 0x80 + n / 4096 % 64, 0x80 + n / 64 % 64, 0x80 + n % 64]
  }

  /** The UTF-8 encoding of a string. */
  function Utf8String(s: string): (r: seq<int>)
    ensures forall k :: 0 <= k < |r| ==> 0 <= r[k] < 256
    ensures |s| <= |r| <= 4 * |s|
  {
    if s == [] then [] else Utf8(s[0]) + Utf8String(s[1..])
  }

  /** A byte read as Windows-1254 text; `None` for the five bytes the code page leaves undefined. */
  function Cp1254(b: int): (r: Option<char>)
    requires 0 <= b < 256
    ensures b < 0x80 ==> r == Some(b as char)
  {
    if b < 0x80 then Some(b as char)
    else if b >= 0xA0 then
      Some(match b
        case 0xD0 => '\U{11E}'
        case 0xDD => '\U{130}'
        case 0xDE => '\U{15E}'
        case 0xF0 => '\U{11F}'
        case 0xFD => '\U{131}'
        case 0xFE => '\U{15F}'
        case _ => b as char)
    else match b
      case 0x80 => Some('\U{20AC}')
      case 0x82 => Some('\U{201A}')
      case 0x83 => Some('\U{192}')
      case 0x84 => Some('\U{201E}')
      case 0x85 => Some('\U{2026}')
      case 0x86 => Some('\U{2020}')
      case 0x87 => Some('\U{2021}')
      case 0x88 => Some('\U{2C6}')
      case 0x89 => Some('\U{2030}')
      case 0x8A => Some('\U{160}')
      case 0x8B => Some('\U{2039}')
      case 0x8C => Some('\U{152}')
      case 0x91 => Some('\U{2018}')
      case 0x92 => Some('\U{2019}')
      case 0x93 => Some('\U{201C}')
      case 0x94 => Some('\U{201D}')
      case 0x95 => Some('\U{2022}')
      case 0x96 => Some('\U{2013}')
      case 0x97 => Some('\U{2014}')
      case 0x98 => Some('\U{2DC}')
      case 0x99 => Some('\U{2122}')
      case 0x9A => Some('\U{161}')
      case 0x9B => Some('\U{203A}')
      case 0x9C => Some('\U{153}')
      case 0x9F => Some('\U{178}')
      case _ => None
  }

  /** Bytes read as Windows-1254 text, undefined bytes dropped. */
  function Cp1254String(bytes: seq<int>): (r: string)
    requires forall k :: 0 <= k < |bytes| ==> 0 <= bytes[k] < 256
    ensures |r| <= |bytes|
  {
    if bytes == [] then ""
    else
      var rest := Cp1254String(bytes[1..]);
      match Cp1254(bytes[0])
      case Some(ch) => [ch] + rest
      case None => rest
  }

  /** Text saved as UTF-8 and read back as Windows-1254. */
  function Misread(s: string): string
  {
    Cp1254String(Utf8String(s))
  }

  /** `getCategoryEmoji` as written: the literals in the file, character for character. */
  function CategoryEmojiAsWritten(c: Category): (r: Option<string>)
    ensures r.Some? <==> c != Cardio && c != Sports
  {
    match c
    case Legs => Some("\U{11F}\U{178}\U{A6}\U{B5}")
    case Back => Some("\U{11F}\U{178}\U{201D}\U{2122}")
    case Chest => Some("\U{11F}\U{178}\U{2019}\U{AA}")
    case Shoulders => Some("\U{11F}\U{178}\U{2039}\U{EF}\U{B8}")
    case Arms => Some("\U{11F}\U{178}\U{2019}\U{AA}")
    case Core => Some("\U{11F}\U{178}\U{AF}")
    case Cardio => None
    case Sports => None
  }

  /** A character whose encoding reads back as `text` is misread as `text`. */
  lemma MisreadOne(e: char, text: string)
    requires Cp1254String(Utf8(e)) == text
    ensures Misread([e]) == text
  {
    var s := [e];
    assert s[1..] == [];
    assert Utf8String(s) == Utf8(e) + [];
    assert Utf8(e) + [] == Utf8(e);
  }

  /** Reading bytes as text works piece by piece. */
  lemma {:induction false} Cp1254Append(a: seq<int>, b: seq<int>)
    requires forall k :: 0 <= k < |a| ==> 0 <= a[k] < 256
    requires forall k :: 0 <= k < |b| ==> 0 <= b[k] < 256
    ensures Cp1254String(a + b) == Cp1254String(a) + Cp1254String(b)
  {
    if a == [] {
      assert a + b == b;
    } else {
      assert (a + b)[0] == a[0] && (a + b)[1..] == a[1..] + b;
      Cp1254Append(a[1..], b);
    }
  }

  /** Two characters are misread one after the other. */
  lemma MisreadTwo(e: char, f: char, t: string, u: string)
    requires Cp1254String(Utf8(e)) == t && Cp1254String(Utf8(f)) == u
    ensures Misread([e, f]) == t + u
  {
    var s := [e, f];
    assert s[1..] == [f] && s[1..][1..] == [];
    assert Utf8String(s) == Utf8(e) + Utf8(f);
    Cp1254Append(Utf8(e), Utf8(f));
  }

  // The bytes of each icon, and what they read back as.

  lemma LegBytes()
    ensures Utf8('\U{1F9B5}') == [0xF0, 0x9F, 0xA6, 0xB5]
    ensures Cp1254String([0xF0, 0x9F, 0xA6, 0xB5]) == "\U{11F}\U{178}\U{A6}\U{B5}"
  {
  }

  lemma BackArrowBytes()
    ensures Utf8('\U{1F519}') == [0xF0, 0x9F, 0x94, 0x99]
    ensures Cp1254String([0xF0, 0x9F, 0x94, 0x99]) == "\U{11F}\U{178}\U{201D}\U{2122}"
  {
  }

  lemma FlexedArmBytes()
    ensures Utf8('\U{1F4AA}') == [0xF0, 0x9F, 0x92, 0xAA]
    ensures Cp1254String([0xF0, 0x9F, 0x92, 0xAA]) == "\U{11F}\U{178}\U{2019}\U{AA}"
  {
  }

  lemma LifterBytes()
    ensures Utf8('\U{1F3CB}') == [0xF0, 0x9F, 0x8F, 0x8B]
    ensures Cp1254String([0xF0, 0x9F, 0x8F, 0x8B]) == "\U{11F}\U{178}\U{2039}"
  {
  }

  lemma SelectorBytes()
    ensures Utf8('\U{FE0F}') == [0xEF, 0xB8, 0x8F]
    ensures Cp1254String([0xEF, 0xB8, 0x8F]) == "\U{EF}\U{B8}"
  {
  }

  lemma TargetBytes()
    ensures Utf8('\U{1F3AF}') == [0xF0, 0x9F, 0x8E, 0xAF]
    ensures Cp1254String([0xF0, 0x9F, 0x8E, 0xAF]) == "\U{11F}\U{178}\U{AF}"
  {
  }

  lemma LegsMisread()
    ensures Misread("\U{1F9B5}") == "\U{11F}\U{178}\U{A6}\U{B5}"
  {
    LegBytes();
    MisreadOne('\U{1F9B5}', "\U{11F}\U{178}\U{A6}\U{B5}");
  }

  lemma BackMisread()
    ensures Misread("\U{1F519}") == "\U{11F}\U{178}\U{201D}\U{2122}"
  {
    BackArrowBytes();
    MisreadOne('\U{1F519}', "\U{11F}\U{178}\U{201D}\U{2122}");
  }

  lemma FlexedArmMisread()
    ensures Misread("\U{1F4AA}") == "\U{11F}\U{178}\U{2019}\U{AA}"
  {
    FlexedArmBytes();
    MisreadOne('\U{1F4AA}', "\U{11F}\U{178}\U{2019}\U{AA}");
  }

  lemma LifterMisread()
    ensures Misread("\U{1F3CB}\U{FE0F}") == "\U{11F}\U{178}\U{2039}\U{EF}\U{B8}"
  {
    LifterBytes();
    SelectorBytes();
    MisreadTwo('\U{1F3CB}', '\U{FE0F}', "\U{11F}\U{178}\U{2039}", "\U{EF}\U{B8}");
  }

  lemma TargetMisread()
    ensures Misread("\U{1F3AF}") == "\U{11F}\U{178}\U{AF}"
  {
    TargetBytes();
    MisreadOne('\U{1F3AF}', "\U{11F}\U{178}\U{AF}");
  }

  /**
   * Every icon in the file is the intended emoji misread: its UTF-8 bytes
   * shown as Windows-1254 text. None of them is the emoji itself, and each
   * shows as three to five characters of Latin text.
   */
  lemma IconsMisencoded(c: Category)
    requires c != Cardio && c != Sports
    ensures CategoryEmojiAsWritten(c) == Some(Misread(CategoryEmoji(c).value))
    ensures CategoryEmojiAsWritten(c) != CategoryEmoji(c)
    ensures 3 <= |CategoryEmojiAsWritten(c).value| <= 5
  {
    match c
    case Legs => LegsMisread();
    case Back => BackMisread();
    case Chest => FlexedArmMisread();
    case Shoulders => LifterMisread();
    case Arms => FlexedArmMisread();
    case Core => TargetMisread();
  }
}

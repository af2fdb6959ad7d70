/**
 * Text that was saved as UTF-8 and then read back as Mac OS Roman: each
 * character becomes its UTF-8 bytes (RFC 3629, section 3), and each byte is
 * read as the Mac OS Roman character with that code.
 */
module TextEncoding {

  /** The UTF-8 encoding of one Unicode scalar value. */
  function Utf8(c: char): (bytes: seq<nat>)
    ensures 1 <= |bytes| <= 4
    ensures forall k :: 0 <= k < |bytes| ==> bytes[k] < 256
    ensures (c as int < 0x80) <==> bytes == [c as int]
  {
    var cp := c as int;
    if cp < 0x80 then [cp]
    else if cp < 0x800 then [0xC0 + cp / 0x40, 0x80 + cp % 0x40]
    else if cp < 0x1_0000 then [0xE0 + cp / 0x1000, 0x80 + cp / 0x40 % 0x40, 0x80 + cp % 0x40]
    else [0xF0 + cp / 0x4_0000, 0x80 + cp / 0x1000 % 0x40, 0x80 + cp / 0x40 % 0x40, 0x80 + cp % 0x40]
  }

  /** The Mac OS Roman character for one byte; the lower half is ASCII. */
  function MacRoman(b: nat): char
    requires b < 256
  {
    if b < 0x80 then b as char else MacRomanHigh(b)
  }

  /** The Mac OS Roman characters for the bytes 0x80 to 0xFF. */
  function MacRomanHigh(b: nat): char
    requires 0x80 <= b < 256
  {
    match b
    case 0x80 => '\U{00c4}' case 0x81 => '\U{00c5}' case 0x82 => '\U{00c7}' case 0x83 => '\U{00c9}'
    case 0x84 => '\U{00d1}' case 0x85 => '\U{00d6}' case 0x86 => '\U{00dc}' case 0x87 => '\U{00e1}'
    case 0x88 => '\U{00e0}' case 0x89 => '\U{00e2}' case 0x8A => '\U{00e4}' case 0x8B => '\U{00e3}'
    case 0x8C => '\U{00e5}' case 0x8D => '\U{00e7}' case 0x8E => '\U{00e9}' case 0x8F => '\U{00e8}'
    case 0x90 => '\U{00ea}' case 0x91 => '\U{00eb}' case 0x92 => '\U{00ed}' case 0x93 => '\U{00ec}'
    case 0x94 => '\U{00ee}' case 0x95 => '\U{00ef}' case 0x96 => '\U{00f1}' case 0x97 => '\U{00f3}'
    case 0x98 => '\U{00f2}' case 0x99 => '\U{00f4}' case 0x9A => '\U{00f6}' case 0x9B => '\U{00f5}'
    case 0x9C => '\U{00fa}' case 0x9D => '\U{00f9}' case 0x9E => '\U{00fb}' case 0x9F => '\U{00fc}'
    case 0xA0 => '\U{2020}' case 0xA1 => '\U{00b0}' case 0xA2 => '\U{00a2}' case 0xA3 => '\U{00a3}'
    case 0xA4 => '\U{00a7}' case 0xA5 => '\U{2022}' case 0xA6 => '\U{00b6}' case 0xA7 => '\U{00df}'
    case 0xA8 => '\U{00ae}' case 0xA9 => '\U{00a9}' case 0xAA => '\U{2122}' case 0xAB => '\U{00b4}'
    case 0xAC => '\U{00a8}' case 0xAD => '\U{2260}' case 0xAE => '\U{00c6}' case 0xAF => '\U{00d8}'
    case 0xB0 => '\U{221e}' case 0xB1 => '\U{00b1}' case 0xB2 => '\U{2264}' case 0xB3 => '\U{2265}'
    case 0xB4 => '\U{00a5}' case 0xB5 => '\U{00b5}' case 0xB6 => '\U{2202}' case 0xB7 => '\U{2211}'
    case 0xB8 => '\U{220f}' case 0xB9 => '\U{03c0}' case 0xBA => '\U{222b}' case 0xBB => '\U{00aa}'
    case 0xBC => '\U{00ba}' case 0xBD => '\U{03a9}' case 0xBE => '\U{00e6}' case 0xBF => '\U{00f8}'
    case 0xC0 => '\U{00bf}' case 0xC1 => '\U{00a1}' case 0xC2 => '\U{00ac}' case 0xC3 => '\U{221a}'
    case 0xC4 => '\U{0192}' case 0xC5 => '\U{2248}' case 0xC6 => '\U{2206}' case 0xC7 => '\U{00ab}'
    case 0xC8 => '\U{00bb}' case 0xC9 => '\U{2026}' case 0xCA => '\U{00a0}' case 0xCB => '\U{00c0}'
    case 0xCC => '\U{00c3}' case 0xCD => '\U{00d5}' case 0xCE => '\U{0152}' case 0xCF => '\U{0153}'
    case 0xD0 => '\U{2013}' case 0xD1 => '\U{2014}' case 0xD2 => '\U{201c}' case 0xD3 => '\U{201d}'
    case 0xD4 => '\U{2018}' case 0xD5 => '\U{2019}' case 0xD6 => '\U{00f7}' case 0xD7 => '\U{25ca}'
    case 0xD8 => '\U{00ff}' case 0xD9 => '\U{0178}' case 0xDA => '\U{2044}' case 0xDB => '\U{20ac}'
    case 0xDC => '\U{2039}' case 0xDD => '\U{203a}' case 0xDE => '\U{fb01}' case 0xDF => '\U{fb02}'
    case 0xE0 => '\U{2021}' case 0xE1 => '\U{00b7}' case 0xE2 => '\U{201a}' case 0xE3 => '\U{201e}'
    case 0xE4 => '\U{2030}' case 0xE5 => '\U{00c2}' case 0xE6 => '\U{00ca}' case 0xE7 => '\U{00c1}'
    case 0xE8 => '\U{00cb}' case 0xE9 => '\U{00c8}' case 0xEA => '\U{00cd}' case 0xEB => '\U{00ce}'
    case 0xEC => '\U{00cf}' case 0xED => '\U{00cc}' case 0xEE => '\U{00d3}' case 0xEF => '\U{00d4}'
    case 0xF0 => '\U{f8ff}' case 0xF1 => '\U{00d2}' case 0xF2 => '\U{00da}' case 0xF3 => '\U{00db}'
    case 0xF4 => '\U{00d9}' case 0xF5 => '\U{0131}' case 0xF6 => '\U{02c6}' case 0xF7 => '\U{02dc}'
    case 0xF8 => '\U{00af}' case 0xF9 => '\U{02d8}' case 0xFA => '\U{02d9}' case 0xFB => '\U{02da}'
    case 0xFC => '\U{00b8}' case 0xFD => '\U{02dd}' case 0xFE => '\U{02db}' case _ => '\U{02c7}'
  }

  function ReadBytes(bytes: seq<nat>): (s: string)
    requires forall k :: 0 <= k < |bytes| ==> bytes[k] < 256
    ensures |s| == |bytes|
  {
    if bytes == [] then [] else [MacRoman(bytes[0])] + ReadBytes(bytes[1..])
  }

  /** `text` saved as UTF-8 and read back as Mac OS Roman. */
  function MisreadAsMacRoman(text: string): (r: string)
    ensures |r| >= |text|
  {
    if text == [] then [] else ReadChar(text[0]) + MisreadAsMacRoman(text[1..])
  }

  /** One character misread: one character of output per UTF-8 byte. */
  function ReadChar(c: char): (r: string)
    ensures 1 <= |r| <= 4
    ensures (c as int < 0x80) <==> r == [c]
  {
    ReadBytes(Utf8(c))
  }

  predicate IsAscii(text: string) {
    forall c | c in text :: c as int < 0x80
  }

  /** The misreading works character by character. */
  lemma {:induction false} MisreadAppend(a: string, b: string)
    ensures MisreadAsMacRoman(a + b) == MisreadAsMacRoman(a) + MisreadAsMacRoman(b)
  {
    if a == [] {
      assert a + b == b;
    } else {
      var ab := a + b;
      assert ab[0] == a[0] && ab[1..] == a[1..] + b;
      MisreadAppend(a[1..], b);
      var head := ReadChar(a[0]);
      calc {
        MisreadAsMacRoman(ab);
        head + MisreadAsMacRoman(a[1..] + b);
        head + (MisreadAsMacRoman(a[1..]) + MisreadAsMacRoman(b));
        (head + MisreadAsMacRoman(a[1..])) + MisreadAsMacRoman(b);
      }
    }
  }

  /** ASCII text survives the misreading unchanged. */
  lemma {:induction false} AsciiSurvives(text: string)
    requires IsAscii(text)
    ensures MisreadAsMacRoman(text) == text
  {
    if text != [] {
      assert text[0] in text;
      forall c | c in text[1..] ensures c as int < 0x80 {
        assert c in text;
      }
      AsciiSurvives(text[1..]);
      assert ReadChar(text[0]) == [text[0]];
      assert text == [text[0]] + text[1..];
    }
  }

  /** Any text with a character outside ASCII comes back longer, hence different. */
  lemma {:induction false} NonAsciiIsGarbled(text: string, k: nat)
    requires k < |text| && text[k] as int >= 0x80
    ensures |MisreadAsMacRoman(text)| > |text|
  {
    if k == 0 {
      assert |ReadChar(text[0])| >= 2;
    } else {
      NonAsciiIsGarbled(text[1..], k - 1);
    }
  }

  /** A lone character misreads to its own reading. */
  lemma MisreadOne(c: char)
    ensures MisreadAsMacRoman([c]) == ReadChar(c)
  {
    assert [c][1..] == [];
  }

  /** Appending ASCII text appends it unchanged to the misreading. */
  lemma MisreadThenAscii(a: string, t: string)
    requires IsAscii(t)
    ensures MisreadAsMacRoman(a + t) == MisreadAsMacRoman(a) + t
  {
    MisreadAppend(a, t);
    AsciiSurvives(t);
  }

  /** Appending one character appends its reading. */
  lemma MisreadThenChar(a: string, c: char)
    ensures MisreadAsMacRoman(a + [c]) == MisreadAsMacRoman(a) + ReadChar(c)
  {
    MisreadAppend(a, [c]);
    MisreadOne(c);
  }

  lemma ReadTwo(x: nat, y: nat)
    requires x < 256 && y < 256
    ensures ReadBytes([x, y]) == [MacRoman(x), MacRoman(y)]
  {
    assert [x, y][1..] == [y];
    assert [y][1..] == [];
  }

  lemma ReadThree(x: nat, y: nat, z: nat)
    requires x < 256 && y < 256 && z < 256
    ensures ReadBytes([x, y, z]) == [MacRoman(x), MacRoman(y), MacRoman(z)]
  {
    assert [x, y, z][1..] == [y, z];
    ReadTwo(y, z);
  }

  lemma ReadFour(w: nat, x: nat, y: nat, z: nat)
    requires w < 256 && x < 256 && y < 256 && z < 256
    ensures ReadBytes([w, x, y, z]) == [MacRoman(w), MacRoman(x), MacRoman(y), MacRoman(z)]
  {
    assert [w, x, y, z][1..] == [x, y, z];
    ReadThree(x, y, z);
  }
}

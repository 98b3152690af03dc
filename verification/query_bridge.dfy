/**
 * The text channel of the control surface: a command line goes in, a
 * reply comes out. The first whitespace-separated word names the command.
 */
module QueryBridge {
  import opened Wrappers
  import opened ModeTable
  import opened SharedState

  /** Rust's `char::is_whitespace`: the Unicode White_Space property. */
  predicate IsWhitespace(c: char)
  {
    var n := c as int;
    (0x09 <= n <= 0x0D) || n == 0x20 || n == 0x85 || n == 0xA0 || n == 0x1680
    || (0x2000 <= n <= 0x200A) || n == 0x2028 || n == 0x2029 || n == 0x202F
    || n == 0x205F || n == 0x3000
  }

  predicate AllSpace(s: string)
  {
    forall i :: 0 <= i < |s| ==> IsWhitespace(s[i])
  }

  predicate NoSpace(s: string)
  {
    forall i :: 0 <= i < |s| ==> !IsWhitespace(s[i])
  }

  /** The longest prefix of `s` that holds no whitespace. */
  function Word(s: string): (w: string)
    ensures |w| <= |s| && w == s[..|w|]
    ensures NoSpace(w)
    ensures |w| < |s| ==> IsWhitespace(s[|w|])
  {
    if s == [] || IsWhitespace(s[0]) then []
    else [s[0]] + Word(s[1..])
  }

  /** The first word of a line, as `split_whitespace().next()` gives it; `None` on a blank line. */
  function FirstToken(s: string): (r: Option<string>)
    ensures r.None? <==> AllSpace(s)
    ensures r.Some? ==> r.value != [] && NoSpace(r.value)
  {
    if s == [] then None
    else if IsWhitespace(s[0]) then FirstToken(s[1..])
    else Some(Word(s))
  }

  /** A decimal digit character. */
  function Digit(d: nat): (c: char)
    requires d < 10
    ensures '0' <= c <= '9'
  {
    ('0' as int + d) as char
  }

  predicate AllDigits(s: string)
  {
    forall i :: 0 <= i < |s| ==> '0' <= s[i] <= '9'
  }

  /** The decimal text of a number, as Rust's `to_string` writes an unsigned integer. */
  function DecimalText(n: nat): (r: string)
    ensures r != [] && AllDigits(r)
    ensures |r| > 1 ==> r[0] != '0'
  {
    if n < 10 then [Digit(n)] else DecimalText(n / 10) + [Digit(n % 10)]
  }

  /** The number a string of decimal digits denotes. */
  function DecimalValue(s: string): nat
    requires AllDigits(s)
  {
    if s == [] then 0 else DecimalValue(s[..|s| - 1]) * 10 + (s[|s| - 1] as int - '0' as int)
  }

  /**
   * The reply to one command line: the mode's decimal text for `getMode`,
   * the position's text for `getTime`, and the empty string otherwise.
   * `showTime` stands for the formatting of the position as text.
   */
  function Respond(message: string, mode: byte, time: real, showTime: real -> string): (r: string)
    ensures FirstToken(message) == Some("getMode") ==> r == DecimalText(mode)
    ensures FirstToken(message) == Some("getTime") ==> r == showTime(time)
    ensures FirstToken(message) != Some("getMode") && FirstToken(message) != Some("getTime") ==> r == []
  {
    match FirstToken(message).GetOr("")
    case "getMode" => DecimalText(mode)
    case "getTime" => showTime(time)
    case _ => ""
  }

  /** Whitespace before a word is skipped, and the word ends at the first whitespace after it. */
  lemma {:induction false} FirstTokenOf(ws: string, tok: string, rest: string)
    requires AllSpace(ws) && tok != [] && NoSpace(tok)
    requires rest == [] || IsWhitespace(rest[0])
    ensures FirstToken(ws + tok + rest) == Some(tok)
    decreases |ws|
  {
    if ws == [] {
      assert ws + tok + rest == tok + rest;
      WordOf(tok, rest);
    } else {
      assert (ws + tok + rest)[1..] == ws[1..] + tok + rest;
      FirstTokenOf(ws[1..], tok, rest);
    }
  }

  /** A word followed by nothing or by whitespace is read whole. */
  lemma {:induction false} WordOf(tok: string, rest: string)
    requires NoSpace(tok)
    requires rest == [] || IsWhitespace(rest[0])
    ensures Word(tok + rest) == tok
    decreases |tok|
  {
    if tok == [] {
      assert tok + rest == rest;
    } else {
      assert (tok + rest)[1..] == tok[1..] + rest;
      WordOf(tok[1..], rest);
    }
  }

  /** The decimal text reads back as the number it was made from. */
  lemma {:induction false} DecimalRoundTrip(n: nat)
    ensures DecimalValue(DecimalText(n)) == n
  {
    if n >= 10 {
      var t := DecimalText(n);
      assert t[..|t| - 1] == DecimalText(n / 10);
      DecimalRoundTrip(n / 10);
    }
  }

  /** A table mode is written as the one digit that denotes it. */
  lemma ModeTextOneDigit(mode: byte)
    requires mode < ModeCount
    ensures |DecimalText(mode)| == 1 && DecimalValue(DecimalText(mode)) == mode
  {
  }

  /** `getMode` answers the mode's digits, whatever whitespace precedes it and whatever words follow. */
  lemma RespondGetMode(ws: string, rest: string, mode: byte, time: real, showTime: real -> string)
    requires AllSpace(ws)
    requires rest == [] || IsWhitespace(rest[0])
    ensures Respond(ws + "getMode" + rest, mode, time, showTime) == DecimalText(mode)
    ensures DecimalValue(DecimalText(mode)) == mode
  {
    FirstTokenOf(ws, "getMode", rest);
    DecimalRoundTrip(mode);
  }

  /** `getTime` answers the position's text, whatever whitespace precedes it and whatever words follow. */
  lemma RespondGetTime(ws: string, rest: string, mode: byte, time: real, showTime: real -> string)
    requires AllSpace(ws)
    requires rest == [] || IsWhitespace(rest[0])
    ensures Respond(ws + "getTime" + rest, mode, time, showTime) == showTime(time)
  {
    FirstTokenOf(ws, "getTime", rest);
  }

  /** Any other first word is answered with the empty string, whatever follows it. */
  lemma RespondOther(ws: string, tok: string, rest: string, mode: byte, time: real, showTime: real -> string)
    requires AllSpace(ws) && tok != [] && NoSpace(tok) && tok != "getMode" && tok != "getTime"
    requires rest == [] || IsWhitespace(rest[0])
    ensures Respond(ws + tok + rest, mode, time, showTime) == ""
  {
    FirstTokenOf(ws, tok, rest);
  }

  /** An empty or all-whitespace line is answered with the empty string. */
  lemma RespondBlank(message: string, mode: byte, time: real, showTime: real -> string)
    requires AllSpace(message)
    ensures Respond(message, mode, time, showTime) == ""
  {
  }

  /**
   * The callback handed to the control surface. It holds the same record
   * the plugin writes to and reads it on every call.
   */
  class JavascriptCallback {
    const flChen: FLChen
    /** How the position is written as text (Rust's `f64` display, outside this model). */
    const showTime: real -> string

    constructor (flChen: FLChen, showTime: real -> string)
      ensures this.flChen == flChen && this.showTime == showTime
    {
      this.flChen := flChen;
      this.showTime := showTime;
    }

    /** Answers one command line from the current record. */
    method Call(message: string) returns (reply: string)
      ensures reply == Respond(message, flChen.mode, flChen.time, showTime)
      ensures flChen.Valid() && FirstToken(message) == Some("getMode") ==> |reply| == 1
    {
      var command := FirstToken(message).GetOr("");
      if command == "getMode" {
        reply := DecimalText(flChen.mode);
        return;
      } else if command == "getTime" {
        reply := showTime(flChen.time);
        return;
      }
      reply := "";
    }
  }
}

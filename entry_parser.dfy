/**
 * The deterministic parts of `processEntryWithGemini` (bots/telegrambot.js):
 * the clean-up of the model's reply before `JSON.parse` (trim, remove
 * "```json" and "```" fences together with one newline after each, trim again,
 * remove every remaining backtick) and the confidence gate the text handler
 * applies to the parsed entry. The model call and `JSON.parse` are not
 * modelled: the parsed entry comes in as a value.
 */
module EntryParser {
  import opened Wrappers

  /** The JSON object the AI returns, once parsed. Amounts are whole numbers; `confidence` is exact. */
  datatype ParsedEntry = ParsedEntry(
    isValid: bool,
    date: string,
    vchName: string,
    vchNumber: Option<string>,
    description: string,
    debit: int,
    credit: int,
    partyName: string,
    confidence: real,
    reasoning: string)

  /** `{ isSuccess: false }` (the call or `JSON.parse` threw) or `{ isSuccess: true, data }`. */
  datatype AiReply = AiFailure | AiParsed(entry: ParsedEntry)

  const MinConfidence: real := 0.6

  /** The text handler goes on only when `!(!isValid || confidence < 0.6)`. */
  predicate PassesGate(e: ParsedEntry)
  {
    e.isValid && e.confidence >= MinConfidence
  }

  /** The gate does not look at the amounts: any debit and credit, both non-zero included, pass with a valid, confident entry. */
  lemma GateAdmitsBothAmounts(e: ParsedEntry, debit: int, credit: int)
    ensures PassesGate(e) <==> PassesGate(e.(debit := debit, credit := credit))
    ensures exists x: ParsedEntry :: PassesGate(x) && x.debit != 0 && x.credit != 0
  {
    var x := ParsedEntry(true, "01-01-2024", "Payment", None, "", 500, 200, "", 0.9, "");
    assert PassesGate(x) && x.debit != 0 && x.credit != 0;
  }

  /** The characters `String.prototype.trim` removes: white space and line terminators. */
  predicate IsJsSpace(c: char)
  {
    || c == '\t' || c == '\n' || c == '\U{000B}' || c == '\U{000C}' || c == '\r' || c == ' '
    || c == '\U{00A0}' || c == '\U{1680}' || ('\U{2000}' <= c <= '\U{200A}')
    || c == '\U{2028}' || c == '\U{2029}' || c == '\U{202F}' || c == '\U{205F}'
    || c == '\U{3000}' || c == '\U{FEFF}'
  }

  function TrimStart(s: string): (r: string)
    ensures |r| <= |s| && r == s[|s| - |r|..]
    ensures r == [] || !IsJsSpace(r[0])
    ensures forall i :: 0 <= i < |s| - |r| ==> IsJsSpace(s[i])
    decreases |s|
  {
    if s != [] && IsJsSpace(s[0]) then TrimStart(s[1..]) else s
  }

  function TrimEnd(s: string): (r: string)
    ensures |r| <= |s| && r == s[..|r|]
    ensures r == [] || !IsJsSpace(r[|r| - 1])
    ensures forall i :: |r| <= i < |s| ==> IsJsSpace(s[i])
    decreases |s|
  {
    if s != [] && IsJsSpace(s[|s| - 1]) then TrimEnd(s[..|s| - 1]) else s
  }

  /** `s.trim()`. */
  function Trim(s: string): (r: string)
    ensures |r| <= |s|
    ensures r == [] || (!IsJsSpace(r[0]) && !IsJsSpace(r[|r| - 1]))
  {
    var a := TrimStart(s);
    var r := TrimEnd(a);
    assert r != [] ==> r[0] == a[0];
    r
  }

  lemma TrimIsInfix(s: string)
    ensures exists i, j :: 0 <= i <= j <= |s| && Trim(s) == s[i..j]
  {
    var a := TrimStart(s);
    var k := |s| - |a|;
    var r := TrimEnd(a);
    assert r == s[k..k + |r|];
  }

  /** A string that neither starts nor ends with white space is its own trim. */
  lemma TrimKeeps(s: string)
    requires s == [] || (!IsJsSpace(s[0]) && !IsJsSpace(s[|s| - 1]))
    ensures Trim(s) == s
  {
  }

  lemma TrimIdempotent(s: string)
    ensures Trim(Trim(s)) == Trim(s)
  {
    var r := Trim(s);
    if r != [] {
      var a := TrimStart(s);
      assert r == a[..|r|];
      assert r[0] == a[0];
      TrimKeeps(r);
    }
  }

  lemma {:induction false} TrimStartAppend(s: string, c: char)
    ensures TrimStart(s + [c]) == if TrimStart(s) == [] then TrimStart([c]) else TrimStart(s) + [c]
    decreases |s|
  {
    if s != [] {
      assert (s + [c])[1..] == s[1..] + [c];
      if IsJsSpace(s[0]) {
        TrimStartAppend(s[1..], c);
      }
    }
  }

  /** Trailing white space does not change the trim. */
  lemma TrimDropsTrailingSpace(s: string, c: char)
    requires IsJsSpace(c)
    ensures Trim(s + [c]) == Trim(s)
  {
    TrimStartAppend(s, c);
    var a := TrimStart(s);
    if a != [] {
      assert (a + [c])[..|a + [c]| - 1] == a;
    }
  }

  lemma TrimKeepsNoBacktick(s: string)
    requires '`' !in s
    ensures '`' !in Trim(s)
  {
    var a := TrimStart(s);
    var k := |s| - |a|;
    var r := TrimEnd(a);
    forall i | 0 <= i < |r| ensures r[i] != '`' {
      assert r[i] == a[i] == s[k + i];
    }
  }

  const JsonFence: string := "```json"
  const Fence: string := "```"

  /** `s.replace(/<tag>\n?/g, "")`: every occurrence of `tag`, with one newline right after it if present, is removed, scanning from the left. */
  function StripFence(s: string, tag: string): (r: string)
    requires |tag| > 0
    ensures |r| <= |s|
    decreases |s|
  {
    if s == [] then []
    else if tag <= s then
      var rest := s[|tag|..];
      if rest != [] && rest[0] == '\n' then StripFence(rest[1..], tag) else StripFence(rest, tag)
    else [s[0]] + StripFence(s[1..], tag)
  }

  /** `s.replace(/`/g, "")`. */
  function RemoveBackticks(s: string): (r: string)
    ensures '`' !in r
    ensures forall c :: c in r <==> c in s && c != '`'
    decreases |s|
  {
    if s == [] then []
    else if s[0] == '`' then RemoveBackticks(s[1..])
    else
      var r := [s[0]] + RemoveBackticks(s[1..]);
      assert forall c :: c in s <==> c == s[0] || c in s[1..];
      r
  }

  lemma {:induction false} RemoveBackticksKeeps(s: string)
    requires '`' !in s
    ensures RemoveBackticks(s) == s
    decreases |s|
  {
    if s != [] {
      assert s[0] in s;
      RemoveBackticksKeeps(s[1..]);
      assert [s[0]] + s[1..] == s;
    }
  }

  /** The reply text as handed to `JSON.parse`. */
  function Clean(raw: string): (text: string)
    ensures '`' !in text
  {
    RemoveBackticks(Trim(StripFence(StripFence(Trim(raw), JsonFence), Fence)))
  }

  /** Text before the first backtick passes through a fence removal untouched. */
  lemma {:induction false} StripFencePlainPrefix(a: string, b: string, tag: string)
    requires |tag| > 0 && tag[0] == '`' && '`' !in a
    ensures StripFence(a + b, tag) == a + StripFence(b, tag)
    decreases |a|
  {
    if a == [] {
      assert a + b == b;
    } else {
      assert a[0] in a;
      assert (a + b)[0] == a[0];
      assert !(tag <= a + b);
      assert (a + b)[1..] == a[1..] + b;
      StripFencePlainPrefix(a[1..], b, tag);
      assert [a[0]] + a[1..] == a;
    }
  }

  /** A string shorter than the tag cannot contain it. */
  lemma {:induction false} StripFenceShort(s: string, tag: string)
    requires |tag| > 0 && |s| < |tag|
    ensures StripFence(s, tag) == s
    decreases |s|
  {
    if s != [] {
      StripFenceShort(s[1..], tag);
      assert [s[0]] + s[1..] == s;
    }
  }

  lemma StripFenceNoBacktick(s: string, tag: string)
    requires |tag| > 0 && tag[0] == '`' && '`' !in s
    ensures StripFence(s, tag) == s
  {
    StripFencePlainPrefix(s, [], tag);
    assert s + [] == s;
  }

  /** On a reply without backticks the clean-up is just `trim`. */
  lemma CleanPlain(raw: string)
    requires '`' !in raw
    ensures Clean(raw) == Trim(raw)
  {
    var t := Trim(raw);
    TrimKeepsNoBacktick(raw);
    StripFenceNoBacktick(t, JsonFence);
    StripFenceNoBacktick(t, Fence);
    TrimIdempotent(raw);
    TrimKeepsNoBacktick(t);
    RemoveBackticksKeeps(Trim(t));
  }

  /** At an occurrence of the tag followed by a newline, both are dropped. */
  lemma StripFenceAtTag(tag: string, x: string)
    requires |tag| > 0
    ensures StripFence(tag + "\n" + x, tag) == StripFence(x, tag)
  {
    var s := tag + "\n" + x;
    assert s[..|tag|] == tag;
    assert s[|tag|..] == "\n" + x;
    assert s[|tag|..][1..] == x;
  }

  /** A backtick-free body stays so with a newline after it. */
  lemma NoBacktickWithNewline(body: string)
    requires '`' !in body
    ensures '`' !in body + "\n"
  {
    forall i | 0 <= i < |body + "\n"| ensures (body + "\n")[i] != '`' {
      if i < |body| {
        assert (body + "\n")[i] == body[i];
      }
    }
  }

  /** The first pass on a ```json fenced reply leaves the body and the closing fence. */
  lemma StripJsonFenceOfFenced(body: string)
    requires '`' !in body
    ensures StripFence("```json\n" + body + "\n```", JsonFence) == body + "\n```"
  {
    var tail := (body + "\n") + "```";
    assert "```json\n" + body + "\n```" == JsonFence + "\n" + tail;
    StripFenceAtTag(JsonFence, tail);
    NoBacktickWithNewline(body);
    StripFencePlainPrefix(body + "\n", "```", JsonFence);
    StripFenceShort("```", JsonFence);
  }

  /** The second pass removes the closing fence. */
  lemma StripClosingFence(body: string)
    requires '`' !in body
    ensures StripFence(body + "\n```", Fence) == body + "\n"
  {
    NoBacktickWithNewline(body);
    StripFencePlainPrefix(body + "\n", "```", Fence);
    assert body + "\n```" == (body + "\n") + "```";
    assert "```"[|Fence|..] == [];
  }

  /** A reply fenced as ```json\n{...}\n``` is cleaned to its trimmed body. */
  lemma CleanJsonFenced(body: string)
    requires '`' !in body
    ensures Clean("```json\n" + body + "\n```") == Trim(body)
  {
    var raw := "```json\n" + body + "\n```";
    assert raw[0] == '`' && raw[|raw| - 1] == '`';
    TrimKeeps(raw);
    StripJsonFenceOfFenced(body);
    StripClosingFence(body);
    TrimDropsTrailingSpace(body, '\n');
    TrimKeepsNoBacktick(body);
    RemoveBackticksKeeps(Trim(body));
  }
}

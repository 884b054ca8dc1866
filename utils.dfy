/** `extractJsonFromText` and `truncateText` (lib/utils.ts).
    The three regular expressions of the extractor are modelled by the
    leftmost-match search they perform. */
module Utils {
  import opened Wrappers
  import opened Text

  const Fence: string := "```"
  const JsonFence: string := "```json"

  /** The fenced-block pattern `opener\s*([\s\S]*?)\s*```` can match at `p`:
      the opener is there and a closing fence follows it somewhere. */
  predicate FenceMatchAt(text: string, opener: string, p: int) {
    OccursAt(text, opener, p)
    && exists q :: p + |opener| <= q <= |text| && OccursAt(text, Fence, q)
  }

  /** Leftmost match at or after `from` of the fenced-block pattern: the opener's
      position and the position of the first closing fence after it. */
  function FindFence(text: string, opener: string, from: nat): (r: Option<(nat, nat)>)
    decreases |text| - from
    ensures r.Some? ==> from <= r.value.0 && FenceMatchAt(text, opener, r.value.0)
    ensures r.Some? ==> r.value.0 + |opener| <= r.value.1 && OccursAt(text, Fence, r.value.1)
    ensures r.Some? ==> forall k :: r.value.0 + |opener| <= k < r.value.1 ==> !OccursAt(text, Fence, k)
    ensures r.Some? ==> forall p :: from <= p < r.value.0 ==> !FenceMatchAt(text, opener, p)
    ensures r.None? ==> forall p :: from <= p ==> !FenceMatchAt(text, opener, p)
  {
    if from + |opener| > |text| then None
    else if OccursAt(text, opener, from) then
      var q := IndexOfFrom(text, Fence, from + |opener|);
      if q.Some? then Some((from, q.value)) else FindFence(text, opener, from + 1)
    else FindFence(text, opener, from + 1)
  }

  /** Position of the last `c` in `text`. */
  function LastIndexOf(text: string, c: char): (r: Option<nat>)
    ensures r.Some? ==> r.value < |text| && text[r.value] == c
    ensures r.Some? ==> forall k :: r.value < k < |text| ==> text[k] != c
    ensures r.None? ==> forall k :: 0 <= k < |text| ==> text[k] != c
  {
    if text == [] then None
    else if text[|text| - 1] == c then Some(|text| - 1)
    else LastIndexOf(text[..|text| - 1], c)
  }

  /** The closing bracket for an opening one. */
  function Closer(c: char): char {
    if c == '{' then '}' else ']'
  }

  /** `(\{[\s\S]*\}|\[[\s\S]*\])` can match at `p`: an opening brace (bracket)
      there with a closing one somewhere after it. */
  predicate BracketMatchAt(text: string, p: int) {
    0 <= p < |text| && (text[p] == '{' || text[p] == '[')
    && exists e :: p < e < |text| && text[e] == Closer(text[p])
  }

  /** Leftmost match of the bracket pattern: its start and, since `[\s\S]*` is
      greedy, the last matching closer in the text. */
  function FindBrackets(text: string, from: nat): (r: Option<(nat, nat)>)
    decreases |text| - from
    ensures r.Some? ==> from <= r.value.0 < r.value.1 < |text| && BracketMatchAt(text, r.value.0)
    ensures r.Some? ==> text[r.value.1] == Closer(text[r.value.0])
    ensures r.Some? ==> forall k :: r.value.1 < k < |text| ==> text[k] != Closer(text[r.value.0])
    ensures r.Some? ==> forall p :: from <= p < r.value.0 ==> !BracketMatchAt(text, p)
    ensures r.None? ==> forall p :: from <= p ==> !BracketMatchAt(text, p)
  {
    if from >= |text| then None
    else if text[from] == '{' || text[from] == '[' then
      var e := LastIndexOf(text, Closer(text[from]));
      if e.Some? && e.value > from then Some((from, e.value))
      else FindBrackets(text, from + 1)
    else FindBrackets(text, from + 1)
  }

  /** `extractJsonFromText`: the first strategy that matches wins. */
  function ExtractJsonFromText(text: string): string {
    var json := FindFence(text, JsonFence, 0);
    if json.Some? then
      Trim(text[json.value.0 + |JsonFence|..json.value.1])
    else
      var plain := FindFence(text, Fence, 0);
      if plain.Some? then
        Trim(text[plain.value.0 + |Fence|..plain.value.1])
      else
        var brackets := FindBrackets(text, 0);
        if brackets.Some? then
          Trim(text[brackets.value.0..brackets.value.1 + 1])
        else
          assert text[0..|text|] == text;
          Trim(text)
  }

  /** Whatever strategy wins, the extracted text is a trimmed slice of the input. */
  lemma ExtractJsonIsTrimmedSlice(text: string)
    ensures exists a, b :: 0 <= a <= b <= |text| && ExtractJsonFromText(text) == Trim(text[a..b])
  {
    var json := FindFence(text, JsonFence, 0);
    var plain := FindFence(text, Fence, 0);
    var brackets := FindBrackets(text, 0);
    if json.Some? {
      assert ExtractJsonFromText(text) == Trim(text[json.value.0 + |JsonFence|..json.value.1]);
    } else if plain.Some? {
      assert ExtractJsonFromText(text) == Trim(text[plain.value.0 + |Fence|..plain.value.1]);
    } else if brackets.Some? {
      assert ExtractJsonFromText(text) == Trim(text[brackets.value.0..brackets.value.1 + 1]);
    } else {
      assert text[0..|text|] == text;
    }
  }

  /** `FindFence` finds the leftmost match and the first fence after its opener. */
  lemma {:induction false} FindFenceIs(text: string, opener: string, from: nat, p: nat, q: nat)
    requires from <= p && FenceMatchAt(text, opener, p)
    requires forall p' :: from <= p' < p ==> !FenceMatchAt(text, opener, p')
    requires p + |opener| <= q && OccursAt(text, Fence, q)
    requires forall k :: p + |opener| <= k < q ==> !OccursAt(text, Fence, k)
    ensures FindFence(text, opener, from) == Some((p, q))
    decreases p - from
  {
    if from < p {
      assert !FenceMatchAt(text, opener, from);
      FindFenceIs(text, opener, from + 1, p, q);
    } else {
      assert IndexOfFrom(text, Fence, p + |opener|).Some?;
    }
  }

  /** `FindBrackets` finds the leftmost opener with a later closer, and the last closer. */
  lemma {:induction false} FindBracketsIs(text: string, from: nat, p: nat, e: nat)
    requires from <= p && BracketMatchAt(text, p)
    requires forall p' :: from <= p' < p ==> !BracketMatchAt(text, p')
    requires p < e < |text| && text[e] == Closer(text[p])
    requires forall k :: e < k < |text| ==> text[k] != Closer(text[p])
    ensures FindBrackets(text, from) == Some((p, e))
    decreases p - from
  {
    if from < p {
      assert !BracketMatchAt(text, from);
      FindBracketsIs(text, from + 1, p, e);
    } else {
      assert LastIndexOf(text, Closer(text[p])).Some?;
    }
  }

  /** No match anywhere means `FindFence` finds none. */
  lemma FindFenceNone(text: string, opener: string)
    requires forall p' :: 0 <= p' ==> !FenceMatchAt(text, opener, p')
    ensures FindFence(text, opener, 0).None?
  {
  }

  /** A ```json block wins: the result is the trimmed text between the first
      opener that has a closing fence after it and the first such fence. */
  lemma JsonFenceWins(text: string, p: nat, q: nat)
    requires FenceMatchAt(text, JsonFence, p)
    requires forall p' :: 0 <= p' < p ==> !FenceMatchAt(text, JsonFence, p')
    requires p + |JsonFence| <= q && OccursAt(text, Fence, q)
    requires forall k :: p + |JsonFence| <= k < q ==> !OccursAt(text, Fence, k)
    ensures ExtractJsonFromText(text) == Trim(text[p + |JsonFence|..q])
  {
    FindFenceIs(text, JsonFence, 0, p, q);
  }

  /** With no ```json block, the first plain ``` block wins in the same way. */
  lemma PlainFenceWins(text: string, p: nat, q: nat)
    requires forall p' :: 0 <= p' ==> !FenceMatchAt(text, JsonFence, p')
    requires FenceMatchAt(text, Fence, p)
    requires forall p' :: 0 <= p' < p ==> !FenceMatchAt(text, Fence, p')
    requires p + |Fence| <= q && OccursAt(text, Fence, q)
    requires forall k :: p + |Fence| <= k < q ==> !OccursAt(text, Fence, k)
    ensures ExtractJsonFromText(text) == Trim(text[p + |Fence|..q])
  {
    FindFenceIs(text, Fence, 0, p, q);
  }

  /** With no fenced block, the span from the leftmost bracket that has a later
      closer up to the last such closer wins; trimming it changes nothing. */
  lemma BracketsWin(text: string, p: nat, e: nat)
    requires forall p' :: 0 <= p' ==> !FenceMatchAt(text, JsonFence, p')
    requires forall p' :: 0 <= p' ==> !FenceMatchAt(text, Fence, p')
    requires BracketMatchAt(text, p)
    requires forall p' :: 0 <= p' < p ==> !BracketMatchAt(text, p')
    requires p < e < |text| && text[e] == Closer(text[p])
    requires forall k :: e < k < |text| ==> text[k] != Closer(text[p])
    ensures ExtractJsonFromText(text) == text[p..e + 1]
  {
    FindFenceNone(text, JsonFence);
    FindFenceNone(text, Fence);
    FindBracketsIs(text, 0, p, e);
    var span := text[p..e + 1];
    assert span[0] == text[p] && span[|span| - 1] == text[e];
    TrimOfTrimmed(span);
  }

  /** When no strategy matches, the input comes back trimmed. */
  lemma NothingMatches(text: string)
    requires forall p' :: 0 <= p' ==> !FenceMatchAt(text, JsonFence, p')
    requires forall p' :: 0 <= p' ==> !FenceMatchAt(text, Fence, p')
    requires forall p' :: 0 <= p' ==> !BracketMatchAt(text, p')
    ensures ExtractJsonFromText(text) == Trim(text)
  {
    FindFenceNone(text, JsonFence);
    FindFenceNone(text, Fence);
    assert FindBrackets(text, 0).None?;
  }

  lemma TrimStartSkipsSpace(c: char, s: string)
    requires IsSpace(c)
    ensures TrimStart([c] + s) == TrimStart(s)
  {
    assert ([c] + s)[1..] == s;
  }

  lemma TrimEndSkipsSpace(s: string, c: char)
    requires IsSpace(c)
    ensures TrimEnd(s + [c]) == TrimEnd(s)
  {
    assert (s + [c])[..|s|] == s;
  }

  lemma TrimStartAppend(s: string, c: char)
    ensures TrimStart(s + [c]) == if AllSpace(s) then TrimStart([c]) else TrimStart(s) + [c]
  {
    if s != [] {
      assert (s + [c])[1..] == s[1..] + [c];
      if IsSpace(s[0]) {
        TrimStartAppend(s[1..], c);
      }
    }
  }

  /** Surrounding a text with line breaks does not change its trimmed form. */
  lemma TrimPadded(body: string)
    ensures Trim("\n" + body + "\n") == Trim(body)
  {
    assert "\n" + body + "\n" == ['\n'] + (body + ['\n']);
    TrimStartSkipsSpace('\n', body + ['\n']);
    TrimStartAppend(body, '\n');
    if !AllSpace(body) {
      TrimEndSkipsSpace(TrimStart(body), '\n');
    } else {
      TrimEmptyIffAllSpace(body);
    }
  }

  /** Round trip: a body without a fence inside, wrapped as a ```json block with
      line breaks, is extracted as the body trimmed. */
  lemma {:induction false} ExtractWrappedBody(body: string)
    requires forall k :: !OccursAt(body, Fence, k)
    ensures ExtractJsonFromText(JsonFence + "\n" + body + "\n" + Fence) == Trim(body)
  {
    var text := JsonFence + "\n" + body + "\n" + Fence;
    var q := |JsonFence| + 1 + |body| + 1;
    assert text[q..q + 3] == Fence;
    assert text[0..|JsonFence|] == JsonFence;
    assert OccursAt(text, Fence, q);
    forall k | |JsonFence| <= k < q ensures !OccursAt(text, Fence, k) {
      if k == |JsonFence| {
        assert text[k] == '\n';
      } else if k + 3 <= q - 1 {
        assert text[k..k + 3] == body[k - 8..k - 5];
        assert !OccursAt(body, Fence, k - 8);
      } else {
        assert text[q - 1] == '\n';
        assert text[k..k + 3][q - 1 - k] == '\n';
      }
    }
    assert text[|JsonFence|..q] == "\n" + body + "\n";
    TrimPadded(body);
    JsonFenceWins(text, 0, q);
  }

  /** A reply that is already a bare JSON object comes back unchanged. */
  lemma BareObjectUnchanged(text: string)
    requires |text| >= 2 && text[0] == '{' && text[|text| - 1] == '}'
    requires forall k :: !OccursAt(text, Fence, k)
    ensures ExtractJsonFromText(text) == text
  {
    forall p' | 0 <= p' ensures !FenceMatchAt(text, JsonFence, p') {
    }
    BracketsWin(text, 0, |text| - 1);
    assert text[0..|text|] == text;
  }

  /** `truncateText`: unchanged when it fits, else the first `maxLength - 3`
      characters followed by "...". */
  function TruncateText(text: string, maxLength: int): (r: string)
    ensures |text| <= maxLength ==> r == text
    ensures |text| > maxLength ==> |r| >= 3 && |r| - 3 <= |text| && r[|r| - 3..] == "..." && text[..|r| - 3] == r[..|r| - 3]
  {
    if |text| <= maxLength then text else Prefix(text, maxLength - 3) + "..."
  }

  /** The result never exceeds `maxLength` once `maxLength` leaves room for the
      ellipsis, and a cut text uses the whole budget. */
  lemma TruncateTextLength(text: string, maxLength: int)
    requires maxLength >= 3
    ensures |TruncateText(text, maxLength)| <= maxLength
    ensures |text| > maxLength ==> |TruncateText(text, maxLength)| == maxLength
  {
  }
}

/**
 * `ask_gemini` (main.py lines 39-67): the language-model gateway. It shuffles
 * the model key pool, then tries each key once; in JSON mode it appends an
 * instruction to the prompt before every attempt, strips Markdown code fences
 * from the reply (line 60) and decodes it, a decoding failure counting as a
 * failed attempt.
 */
module Brain {
  import opened Wrappers
  import opened Strings
  import opened JsonValues
  import opened KeyPools
  import opened Rotation

  const JsonSuffix := "\n\nRETURN JSON ONLY. NO MARKDOWN."

  // ---------------------------------------------------------------- code fences

  /** No three backticks in a row, stated character by character. */
  predicate NoFence(r: string)
  {
    forall i :: 0 <= i < |r| - 2 ==> !(r[i] == '`' && r[i + 1] == '`' && r[i + 2] == '`')
  }

  lemma NoFenceAvoids(r: string)
    requires NoFence(r)
    ensures !Contains(r, "```")
  {
    forall i | 0 <= i <= |r| ensures !OccursAt(r, "```", i) {
      if i + 3 <= |r| {
        assert r[i..i + 3][0] == r[i] && r[i..i + 3][1] == r[i + 1] && r[i..i + 3][2] == r[i + 2];
      }
    }
  }

  /** Python's `s.replace("```", "")` leaves no triple backtick behind. */
  lemma {:induction false} FenceRemovalLeavesNone(t: string)
    ensures var r := ReplaceAll(t, "```", "");
            && NoFence(r)
            && (|r| >= 1 && r[0] == '`' ==> |t| >= 1 && t[0] == '`')
            && (|r| >= 2 && r[0] == '`' && r[1] == '`' ==> |t| >= 2 && t[0] == '`' && t[1] == '`')
    decreases |t|
  {
    if |t| >= 3 {
      if t[..3] == "```" {
        FenceRemovalLeavesNone(t[3..]);
        assert t[0] == t[..3][0] && t[1] == t[..3][1];
      } else {
        FenceFreeHead(t);
      }
    }
  }

  /** The step where the first character of `t` is kept. */
  lemma {:induction false} FenceFreeHead(t: string)
    requires |t| >= 3 && t[..3] != "```"
    ensures var r := ReplaceAll(t, "```", "");
            && NoFence(r)
            && (|r| >= 1 && r[0] == '`' ==> t[0] == '`')
            && (|r| >= 2 && r[0] == '`' && r[1] == '`' ==> t[0] == '`' && t[1] == '`')
    decreases |t|, 0
  {
    var u := t[1..];
    FenceRemovalLeavesNone(u);
    var ru := ReplaceAll(u, "```", "");
    var r := [t[0]] + ru;
    assert ReplaceAll(t, "```", "") == r;
    assert forall i :: 0 < i < |r| ==> r[i] == ru[i - 1];
    assert t[..3] == [t[0], u[0], u[1]];
  }

  /**
   * Line 60: `text.replace("```json", "").replace("```", "").strip()`. What is
   * handed to `json.loads` holds no triple backtick and no surrounding whitespace.
   */
  function StripFences(text: string): (r: string)
    ensures Trimmed(r) && !Contains(r, "```")
  {
    var unfenced := ReplaceAll(ReplaceAll(text, "```json", ""), "```", "");
    FenceRemovalLeavesNone(ReplaceAll(text, "```json", ""));
    NoFenceAvoids(unfenced);
    SubstringAvoids(unfenced, Strip(unfenced), "```");
    Strip(unfenced)
  }

  /** A reply wrapped in a ```json fence gives back exactly the wrapped payload. */
  lemma StripFencesUnwraps(body: string)
    requires '`' !in body && Trimmed(body)
    ensures StripFences("```json\n" + body + "\n```") == body
  {
    var mid := "\n" + body + "\n";
    var text := "```json" + mid + "```";
    assert "```json\n" + body + "\n```" == text;
    assert '`' !in mid;
    assert text[..7] == "```json" && text[7..] == mid + "```";
    ReplaceAllSkips(mid, "```", "```json", "");
    assert ReplaceAll("```", "```json", "") == "```";
    assert ReplaceAll(text, "```json", "") == mid + "```";
    ReplaceAllSkips(mid, "```", "```", "");
    assert ReplaceAll("```", "```", "") == "" + ReplaceAll("", "```", "");
    assert mid + "" == mid;
    assert mid == "\n" + body + "\n";
    StripPadded("\n", body, "\n");
  }

  // ---------------------------------------------------------------- prompts

  /** `n` copies of `s`, one after another. */
  function Copies(s: string, n: nat): string
  {
    if n == 0 then "" else Copies(s, n - 1) + s
  }

  /**
   * The value of `prompt` after `n` passes of the loop body: in JSON mode
   * line 53 has appended the instruction `n` times.
   */
  function PromptAfter(prompt: string, jsonMode: bool, n: nat): (p: string)
    ensures !jsonMode ==> p == prompt
    ensures |prompt| <= |p| && p[..|prompt|] == prompt
  {
    if jsonMode then prompt + Copies(JsonSuffix, n) else prompt
  }

  /** Each JSON-mode retry carries one more copy of the instruction than the one before. */
  lemma {:induction false} RetryPromptGrows(prompt: string, n: nat)
    ensures PromptAfter(prompt, true, n + 1) == PromptAfter(prompt, true, n) + JsonSuffix
    ensures PromptAfter(prompt, true, n) != PromptAfter(prompt, true, n + 1)
  {
    assert prompt + (Copies(JsonSuffix, n) + JsonSuffix) == prompt + Copies(JsonSuffix, n) + JsonSuffix;
  }

  // ---------------------------------------------------------------- attempts

  /** What `ask_gemini` returns: the reply text, or in JSON mode the decoded document. */
  datatype Answer = Text(text: string) | Parsed(value: Json)

  /**
   * One pass of the loop body (lines 47-66) with `key` and prompt `p`.
   * `generate` is the provider (`None` when it raised); `parse` is `json.loads`
   * (`None` on a decoding error).
   */
  function GeminiAttempt<I>(key: string, p: string, image: Option<I>, jsonMode: bool,
                            generate: (string, string, Option<I>) -> Option<string>,
                            parse: string -> Option<Json>): (r: Option<Answer>)
    ensures r.Some? ==> (jsonMode <==> r.value.Parsed?)
    ensures generate(key, p, image).None? ==> r.None?
    ensures !jsonMode && generate(key, p, image).Some? ==> r == Some(Text(generate(key, p, image).value))
    ensures jsonMode && generate(key, p, image).Some? ==>
              var decoded := parse(StripFences(generate(key, p, image).value));
              && (r.None? <==> decoded.None?)
              && (decoded.Some? ==> r == Some(Parsed(decoded.value)))
  {
    match generate(key, p, image)
    case None => None
    case Some(reply) =>
      if jsonMode then
        match parse(StripFences(reply))
        case None => None
        case Some(v) => Some(Parsed(v))
      else Some(Text(reply))
  }

  /** The `i`-th attempt sends the prompt as it stands after `i + 1` passes. */
  function GeminiAttempts<I>(prompt: string, image: Option<I>, jsonMode: bool,
                             generate: (string, string, Option<I>) -> Option<string>,
                             parse: string -> Option<Json>): (nat, string) -> Option<Answer>
  {
    (i: nat, key: string) => GeminiAttempt(key, PromptAfter(prompt, jsonMode, i + 1), image, jsonMode, generate, parse)
  }

  /**
   * Pass `i` of the loop, stated on the rotation: a reply ends the call with it,
   * a failure moves on to key `i + 1`.
   */
  lemma GeminiStep<I>(keys: seq<string>, prompt: string, image: Option<I>, jsonMode: bool,
                      generate: (string, string, Option<I>) -> Option<string>,
                      parse: string -> Option<Json>, i: nat)
    requires i < |keys|
    ensures var attempt := GeminiAttempts(prompt, image, jsonMode, generate, parse);
            var a := GeminiAttempt(keys[i], PromptAfter(prompt, jsonMode, i + 1), image, jsonMode, generate, parse);
            && (a.Some? ==> RunFrom(keys, i, attempt) == Run(a, i + 1))
            && (a.None? ==> RunFrom(keys, i, attempt) == RunFrom(keys, i + 1, attempt))
  {
    var attempt := GeminiAttempts(prompt, image, jsonMode, generate, parse);
    assert attempt(i, keys[i]) == GeminiAttempt(keys[i], PromptAfter(prompt, jsonMode, i + 1), image, jsonMode, generate, parse);
    RunFromStep(keys, i, attempt);
  }

  /** What `ask_gemini` returns when the pool, in the order it is tried, is `keys`. */
  function Ask<I>(keys: seq<string>, prompt: string, image: Option<I>, jsonMode: bool,
                  generate: (string, string, Option<I>) -> Option<string>,
                  parse: string -> Option<Json>): Option<Answer>
  {
    Rotate(keys, GeminiAttempts(prompt, image, jsonMode, generate, parse)).result
  }

  /**
   * In JSON mode the call ends at the first reply that decodes, whatever it
   * decodes to: line 61 returns `json.loads(text)` at once, so a reply that
   * decodes to `null` or another falsy value ends the call too, and the keys
   * after it are never tried.
   */
  lemma JsonCallEndsAtFirstDecode<I>(keys: seq<string>, prompt: string, image: Option<I>,
                                     generate: (string, string, Option<I>) -> Option<string>,
                                     parse: string -> Option<Json>, k: nat)
    requires k < |keys|
    requires forall j :: 0 <= j < k ==>
               GeminiAttempt(keys[j], PromptAfter(prompt, true, j + 1), image, true, generate, parse).None?
    requires generate(keys[k], PromptAfter(prompt, true, k + 1), image).Some?
    requires parse(StripFences(generate(keys[k], PromptAfter(prompt, true, k + 1), image).value)).Some?
    ensures var decoded := parse(StripFences(generate(keys[k], PromptAfter(prompt, true, k + 1), image).value));
            Rotate(keys, GeminiAttempts(prompt, image, true, generate, parse)) == Run(Some(Parsed(decoded.value)), k + 1)
  {
    var attempt := GeminiAttempts(prompt, image, true, generate, parse);
    forall j | 0 <= j < k ensures attempt(j, keys[j]) == None {
      assert attempt(j, keys[j]) == GeminiAttempt(keys[j], PromptAfter(prompt, true, j + 1), image, true, generate, parse);
    }
    assert attempt(k, keys[k]) == GeminiAttempt(keys[k], PromptAfter(prompt, true, k + 1), image, true, generate, parse);
    RotateDecidedBy(keys, k, attempt);
  }

  /**
   * `ask_gemini(prompt, image, json_mode)`. `sent` lists the (key, prompt)
   * pairs handed to the provider, in order.
   */
  method AskGemini<I>(pool: KeyPool, prompt: string, image: Option<I>, jsonMode: bool,
                      randbelow: nat -> nat,
                      generate: (string, string, Option<I>) -> Option<string>,
                      parse: string -> Option<Json>)
    returns (answer: Option<Answer>, sent: seq<(string, string)>)
    requires pool.Valid() && RandBelow(randbelow)
    modifies pool
    ensures pool.Valid()
    ensures |pool.keys| == |old(pool.keys)| && multiset(pool.keys) == multiset(old(pool.keys))
    ensures old(pool.keys) == [] ==> answer == None && sent == []
    ensures answer == Ask(pool.keys, prompt, image, jsonMode, generate, parse)
    ensures |sent| == Rotate(pool.keys, GeminiAttempts(prompt, image, jsonMode, generate, parse)).tried
    ensures forall i :: 0 <= i < |sent| ==> sent[i] == (pool.keys[i], PromptAfter(prompt, jsonMode, i + 1))
    ensures answer.Some? ==> (jsonMode <==> answer.value.Parsed?)
  {
    if pool.keys == [] {
      return None, [];
    }
    pool.Shuffle(randbelow);
    answer, sent := TryKeys(pool.keys, prompt, image, jsonMode, generate, parse);
  }

  /** The (key, prompt) pairs of the first `n` passes of the loop. */
  function Sends(keys: seq<string>, prompt: string, jsonMode: bool, n: nat): (s: seq<(string, string)>)
    requires n <= |keys|
    ensures |s| == n
    ensures forall k :: 0 <= k < n ==> s[k] == (keys[k], PromptAfter(prompt, jsonMode, k + 1))
  {
    if n == 0 then [] else Sends(keys, prompt, jsonMode, n - 1) + [(keys[n - 1], PromptAfter(prompt, jsonMode, n))]
  }

  /**
   * Lines 46-67, the `for key in ACTIVE_GEMINI_KEYS` loop over the pool as
   * shuffled: `prompt` grows by one instruction per pass in JSON mode, and the
   * first reply that arrives (and, in JSON mode, decodes) is returned.
   */
  method TryKeys<I>(keys: seq<string>, prompt: string, image: Option<I>, jsonMode: bool,
                    generate: (string, string, Option<I>) -> Option<string>,
                    parse: string -> Option<Json>)
    returns (answer: Option<Answer>, sent: seq<(string, string)>)
    ensures var run := Rotate(keys, GeminiAttempts(prompt, image, jsonMode, generate, parse));
            answer == run.result && |sent| == run.tried
    ensures forall i :: 0 <= i < |sent| ==> sent[i] == (keys[i], PromptAfter(prompt, jsonMode, i + 1))
    ensures answer.Some? ==> (jsonMode <==> answer.value.Parsed?)
  {
    answer, sent := None, [];
    ghost var attempt := GeminiAttempts(prompt, image, jsonMode, generate, parse);
    var p := prompt;
    var i := 0;
    while i < |keys|
      invariant 0 <= i <= |keys|
      invariant p == PromptAfter(prompt, jsonMode, i)
      invariant Rotate(keys, attempt) == RunFrom(keys, i, attempt)
      invariant answer == None && sent == Sends(keys, prompt, jsonMode, i)
    {
      var key := keys[i];
      if jsonMode {
        RetryPromptGrows(prompt, i);
        p := p + JsonSuffix;
      }
      sent := sent + [(key, p)];
      assert sent == Sends(keys, prompt, jsonMode, i + 1);
      answer := GeminiAttempt(key, p, image, jsonMode, generate, parse);
      GeminiStep(keys, prompt, image, jsonMode, generate, parse, i);
      if answer.Some? {
        return;
      }
      i := i + 1;
    }
    assert RunFrom(keys, i, attempt) == Run(None, i);
  }
}

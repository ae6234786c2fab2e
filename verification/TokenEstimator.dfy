/** `estimate_tokens`: characters to tokens by model family and language. */
module TokenEstimator {
  import opened Rounding

  datatype Multiplier = Multiplier(family: string, en: real, zh: real) {
    /** `get(language, en)`: an unknown language counts as English. */
    function For(language: string): real {
      if language == "zh" then zh else en
    }
  }

  const TOKEN_MULTIPLIERS := [
    Multiplier("gpt", 0.30, 0.60),
    Multiplier("openai", 0.30, 0.60),
    Multiplier("claude", 0.35, 0.65),
    Multiplier("anthropic", 0.35, 0.65),
    Multiplier("gemini", 0.32, 0.55)
  ]

  const DEFAULT_MULTIPLIER := Multiplier("", 0.40, 0.70)

  function ToLower(s: string): string {
    seq(|s|, i requires 0 <= i < |s| => if 'A' <= s[i] <= 'Z' then s[i] - 'A' + 'a' else s[i])
  }

  predicate Contains(s: string, part: string) {
    part <= s || (s != [] && Contains(s[1..], part))
  }

  /** The first family, in table order, whose name occurs in the lower-cased model id. */
  function FamilyOf(table: seq<Multiplier>, modelLower: string): (m: Multiplier)
    ensures m == DEFAULT_MULTIPLIER || m in table
  {
    if table == [] then DEFAULT_MULTIPLIER
    else if Contains(modelLower, table[0].family) then table[0]
    else FamilyOf(table[1..], modelLower)
  }

  function EstimateTokens(charCount: int, modelId: string, language: string): int {
    if charCount <= 0 then 0
    else
      var multiplier := FamilyOf(TOKEN_MULTIPLIERS, ToLower(modelId)).For(language);
      MaxInt(1, Trunc(charCount as real * multiplier))
  }

  /** Some text costs at least one token, and never more tokens than characters. */
  lemma EstimateBounds(charCount: int, modelId: string, language: string)
    ensures charCount > 0 ==> 1 <= EstimateTokens(charCount, modelId, language) <= charCount
    ensures charCount <= 0 ==> EstimateTokens(charCount, modelId, language) == 0
  {
    if charCount > 0 {
      var k := FamilyOf(TOKEN_MULTIPLIERS, ToLower(modelId)).For(language);
      assert 0.0 <= k <= 1.0;
      assert charCount as real * k <= charCount as real;
    }
  }

  // ----- the estimate, family by family

  /** The letter is the lower-case letter `low`, or its capital. */
  predicate SameLetter(c: char, low: char) { c == low || ('A' <= c <= 'Z' && c as int + 32 == low as int) }

  /** The family's name starts at position `at`, in whatever case. */
  ghost predicate NamedAt(modelId: string, name: string, at: nat) {
    at + |name| <= |modelId| && forall j :: 0 <= j < |name| ==> SameLetter(modelId[at + j], name[j])
  }

  ghost predicate Names(modelId: string, name: string) { exists at :: NamedAt(modelId, name, at) }

  lemma {:induction false} ContainsAt(s: string, part: string)
    ensures Contains(s, part) <==> exists at: nat :: at <= |s| && part <= s[at..]
  {
    if part <= s {
      assert s[0..] == s;
    } else if s == [] {
      assert forall at: nat :: at <= |s| ==> s[at..] == s;
    } else {
      ContainsAt(s[1..], part);
      if Contains(s[1..], part) {
        var at: nat :| at <= |s[1..]| && part <= s[1..][at..];
        assert s[at + 1..] == s[1..][at..];
      }
      if at: nat :| at <= |s| && part <= s[at..] {
        assert s[0..] == s;
        assert at > 0;
        assert s[1..][at - 1..] == s[at..];
      }
    }
  }

  lemma LowerAt(modelId: string, name: string, at: nat)
    requires forall c :: c in name ==> 'a' <= c <= 'z'
    ensures NamedAt(modelId, name, at) <==> at <= |modelId| && name <= ToLower(modelId)[at..]
  {
    if at + |name| <= |modelId| {
      var part := ToLower(modelId)[at..][..|name|];
      forall j | 0 <= j < |name|
        ensures SameLetter(modelId[at + j], name[j]) <==> part[j] == name[j]
      {
        assert name[j] in name;
        LowerLetter(modelId, at + j, name[j]);
      }
      assert name <= ToLower(modelId)[at..] <==> part == name;
    }
  }

  lemma LowerLetter(s: string, i: nat, low: char)
    requires i < |s| && 'a' <= low <= 'z'
    ensures SameLetter(s[i], low) <==> ToLower(s)[i] == low
  {
  }

  lemma ContainsNames(modelId: string, name: string)
    requires forall c :: c in name ==> 'a' <= c <= 'z'
    ensures Contains(ToLower(modelId), name) <==> Names(modelId, name)
  {
    hide Contains, NamedAt;
    var lower := ToLower(modelId);
    ContainsAt(lower, name);
    forall at: nat {
      LowerAt(modelId, name, at);
    }
    if Contains(lower, name) {
      var at: nat :| at <= |lower| && name <= lower[at..];
      assert NamedAt(modelId, name, at);
    }
    if Names(modelId, name) {
      var at: nat :| NamedAt(modelId, name, at);
      assert at <= |lower| && name <= lower[at..];
    }
  }

  lemma {:induction false} FirstFamily(table: seq<Multiplier>, lower: string, k: nat)
    requires k <= |table|
    requires forall j :: 0 <= j < k ==> !Contains(lower, table[j].family)
    requires k < |table| ==> Contains(lower, table[k].family)
    ensures FamilyOf(table, lower) == if k < |table| then table[k] else DEFAULT_MULTIPLIER
  {
    hide Contains;
    if k > 0 {
      FirstFamily(table[1..], lower, k - 1);
    }
  }

  lemma Percentage(charCount: int, percent: int, rate: real)
    requires charCount > 0 && percent >= 0 && rate * 100.0 == percent as real
    ensures Trunc(charCount as real * rate) == charCount * percent / 100
  {
    var x, q := charCount as real * rate, charCount * percent / 100;
    assert x * 100.0 == (charCount * percent) as real;
    assert 100 * q <= charCount * percent < 100 * q + 100;
    assert q as real <= x < q as real + 1.0;
  }

  function PercentOf(k: nat, language: string): int
    requires k <= |FAMILIES|
  {
    if language == "zh" then CHINESE[k] else ENGLISH[k]
  }

  function FamilyAt(k: nat): Multiplier
    requires k <= |FAMILIES|
  {
    if k < |TOKEN_MULTIPLIERS| then TOKEN_MULTIPLIERS[k] else DEFAULT_MULTIPLIER
  }

  lemma FamilyNamed(modelId: string, k: nat)
    requires k <= |FAMILIES|
    requires forall j :: 0 <= j < k ==> !Names(modelId, FAMILIES[j])
    requires k < |FAMILIES| ==> Names(modelId, FAMILIES[k])
    ensures FamilyOf(TOKEN_MULTIPLIERS, ToLower(modelId)) == FamilyAt(k)
  {
    hide Names, Contains, ToLower, FamilyOf;
    var lower, table := ToLower(modelId), TOKEN_MULTIPLIERS;
    forall j: nat | j < |FAMILIES|
      ensures Contains(lower, table[j].family) <==> Names(modelId, FAMILIES[j])
    {
      FamilyNames(j);
      ContainsNames(modelId, FAMILIES[j]);
    }
    FirstFamily(table, lower, k);
  }

  lemma FamilyRates(k: nat, language: string)
    requires k <= |FAMILIES|
    ensures FamilyAt(k).For(language) * 100.0 == PercentOf(k, language) as real && PercentOf(k, language) >= 0
  {
    var family := FamilyAt(k);
    assert (family.en * 100.0, family.zh * 100.0) == (ENGLISH[k] as real, CHINESE[k] as real);
  }

  lemma FamilyNames(j: nat)
    requires j < |FAMILIES|
    ensures FAMILIES[j] == TOKEN_MULTIPLIERS[j].family && forall c :: c in FAMILIES[j] ==> 'a' <= c <= 'z'
  {
  }

  const FAMILIES := ["gpt", "openai", "claude", "anthropic", "gemini"]

  /** Tokens per hundred characters of English and of Chinese, by family; last, of any other model. */
  const ENGLISH := [30, 30, 35, 35, 32, 40]
  const CHINESE := [60, 60, 65, 65, 55, 70]

  /** The estimate is the family's percentage of the characters, cut off, and at least one token. The family is the
      first named in the model id, in whatever case; any language but Chinese counts as English. */
  lemma EstimateLaw(charCount: int, modelId: string, language: string, k: nat)
    requires charCount > 0 && k <= |FAMILIES|
    requires forall j :: 0 <= j < k ==> !Names(modelId, FAMILIES[j])
    requires k < |FAMILIES| ==> Names(modelId, FAMILIES[k])
    ensures EstimateTokens(charCount, modelId, language) == MaxInt(1, charCount * PercentOf(k, language) / 100)
  {
    hide Names, FamilyOf, Multiplier.For, PercentOf, FamilyAt, Trunc;
    FamilyNamed(modelId, k);
    FamilyRates(k, language);
    Percentage(charCount, PercentOf(k, language), FamilyAt(k).For(language));
  }
}

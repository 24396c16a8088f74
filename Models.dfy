/** Value types shared by the transcription services and the provider/model
    catalogue of `STTProviderType`. */
module Models {

  type AudioChunk = seq<bv8>

  /** One partial recognition result. Its timestamp (a clock reading) is not
      modelled. */
  datatype TranscriptionChunk = TranscriptionChunk(text: string, isFinal: bool)

  /** `TranscriptionChunk.init`: `isFinal` defaults to false. */
  function NewChunk(text: string, isFinal: bool := false): (c: TranscriptionChunk)
    ensures c.text == text && c.isFinal == isFinal
  {
    TranscriptionChunk(text, isFinal)
  }

  lemma ChunkDefaultIsNotFinal(text: string)
    ensures !NewChunk(text).isFinal && NewChunk(text).text == text
  {
  }

  /** Provider settings for one transcription. The optional sampling
      temperature (a float) is not modelled. */
  datatype ProviderConfig = ProviderConfig(
    apiKey: string,
    model: string,
    systemPrompt: Option<string>,
    language: Option<string>,
    keywords: Option<seq<string>>)

  datatype Option<T> = None | Some(value: T)

  /** `ProviderConfig.init`: every optional field defaults to nil. */
  function NewConfig(apiKey: string, model: string,
                     systemPrompt: Option<string> := None,
                     language: Option<string> := None,
                     keywords: Option<seq<string>> := None): (c: ProviderConfig)
    ensures c.apiKey == apiKey && c.model == model
    ensures c.systemPrompt == systemPrompt && c.language == language && c.keywords == keywords
  {
    ProviderConfig(apiKey, model, systemPrompt, language, keywords)
  }

  lemma ConfigDefaultsAreNil(apiKey: string, model: string)
    ensures NewConfig(apiKey, model).systemPrompt == None
    ensures NewConfig(apiKey, model).language == None
    ensures NewConfig(apiKey, model).keywords == None
  {
  }

  // ---------------------------------------------------------------------
  // Providers and their models

  datatype ProviderType = OpenAI

  function RawValue(p: ProviderType): string {
    match p
    case OpenAI => "OpenAI"
  }

  /** `STTProviderType(rawValue:)`. */
  function ProviderFromRaw(s: string): (r: Option<ProviderType>)
    ensures r.Some? ==> RawValue(r.value) == s
  {
    if s == "OpenAI" then Some(OpenAI) else None
  }

  /** Every provider is recovered from its raw value. */
  lemma RawValueRoundTrip(p: ProviderType)
    ensures ProviderFromRaw(RawValue(p)) == Some(p)
  {
  }

  /** All provider kinds (`CaseIterable.allCases`). */
  function AllProviders(): (r: seq<ProviderType>)
    ensures forall p :: p in r
  {
    forall p: ProviderType ensures p in [OpenAI] {
      assert p.OpenAI?;
    }
    [OpenAI]
  }

  function RestModels(p: ProviderType): seq<string> {
    match p
    case OpenAI => ["whisper-1", "gpt-4o-transcribe", "gpt-4o-mini-transcribe"]
  }

  function RealtimeModels(p: ProviderType): seq<string> {
    match p
    case OpenAI => ["gpt-4o-transcribe", "gpt-4o-mini-transcribe", "whisper-1"]
  }

  /** `supportsRealtime(model)`: the model is among the realtime models;
      these are the REST models, listed in another order. */
  predicate SupportsRealtime(p: ProviderType, model: string)
    ensures SupportsRealtime(p, model) <==> model in RestModels(p)
  {
    model in RealtimeModels(p)
  }

  /** `supportsRealtimeStreaming`: the provider has some realtime model. */
  function SupportsRealtimeStreaming(p: ProviderType): (r: bool)
    ensures r <==> exists m :: SupportsRealtime(p, m)
  {
    assert SupportsRealtime(p, RealtimeModels(p)[0]);
    |RealtimeModels(p)| != 0
  }

  /** `allModels`: the REST and realtime models, de-duplicated (through a
      `Set`) and sorted ascending. */
  function AllModels(p: ProviderType): (r: seq<string>)
    ensures StrictlyAscending(r)
    ensures forall m :: m in r <==> m in RestModels(p) || m in RealtimeModels(p)
  {
    SortedSet(RestModels(p) + RealtimeModels(p))
  }

  /** The catalogue, written out: the three model names in ascending order. */
  lemma AllModelsValue(p: ProviderType)
    ensures AllModels(p) == ["gpt-4o-mini-transcribe", "gpt-4o-transcribe", "whisper-1"]
  {
    var expected := ["gpt-4o-mini-transcribe", "gpt-4o-transcribe", "whisper-1"];
    ModelNamesAscending(expected);
    var all := AllModels(p);
    forall m ensures m in all <==> m in expected {
      assert m in RestModels(p) <==> m in expected;
    }
    AscendingUnique(all, expected);
  }

  lemma ModelNamesAscending(expected: seq<string>)
    requires expected == ["gpt-4o-mini-transcribe", "gpt-4o-transcribe", "whisper-1"]
    ensures StrictlyAscending(expected)
  {
    MiniBeforeFull();
    var b: string := "gpt-4o-transcribe";
    var c: string := "whisper-1";
    assert b[..0] == c[..0];
    StrLessAt(b, c, 0);
    AscendingThree(expected[0], b, c);
  }

  lemma AscendingThree(a: string, b: string, c: string)
    requires StrLess(a, b) && StrLess(b, c)
    ensures StrictlyAscending([a, b, c])
  {
  }

  lemma MiniBeforeFull()
    ensures StrLess("gpt-4o-mini-transcribe", "gpt-4o-transcribe")
  {
    var a: string := "gpt-4o-mini-transcribe";
    var b: string := "gpt-4o-transcribe";
    assert a[..7] == b[..7];
    StrLessAt(a, b, 7);
  }

  /** The two model lists name the same three models, so the catalogue has
      exactly three entries, every REST model can also stream, and a model
      supports realtime exactly when it is in the catalogue. */
  lemma CatalogueFacts(p: ProviderType)
    ensures |AllModels(p)| == 3
    ensures forall m :: m in RestModels(p) ==> SupportsRealtime(p, m)
    ensures forall m :: SupportsRealtime(p, m) <==> m in AllModels(p)
    ensures SupportsRealtimeStreaming(p)
  {
    AllModelsValue(p);
  }

  // ---------------------------------------------------------------------
  // String order and sorted de-duplication

  /** Lexicographic order on strings by character code, the order Swift's
      `sorted()` uses for these ASCII model names. */
  predicate StrLess(a: string, b: string) {
    if a == [] then b != []
    else if b == [] then false
    else if a[0] != b[0] then a[0] < b[0]
    else StrLess(a[1..], b[1..])
  }

  lemma {:induction false} StrLessIrreflexive(a: string)
    ensures !StrLess(a, a)
  {
    if a != [] { StrLessIrreflexive(a[1..]); }
  }

  lemma {:induction false} StrLessTransitive(a: string, b: string, c: string)
    requires StrLess(a, b) && StrLess(b, c)
    ensures StrLess(a, c)
  {
    if a != [] && b != [] && c != [] && a[0] == b[0] == c[0] {
      StrLessTransitive(a[1..], b[1..], c[1..]);
    }
  }

  lemma {:induction false} StrLessTotal(a: string, b: string)
    requires a != b
    ensures StrLess(a, b) || StrLess(b, a)
  {
    if a != [] && b != [] && a[0] == b[0] {
      assert a == [a[0]] + a[1..] && b == [b[0]] + b[1..];
      StrLessTotal(a[1..], b[1..]);
    }
  }

  /** Strings that agree before position `k` and differ at `k` are ordered
      by their characters at `k`. */
  lemma {:induction false} StrLessAt(a: string, b: string, k: nat)
    requires k < |a| && k < |b| && a[..k] == b[..k] && a[k] < b[k]
    ensures StrLess(a, b)
  {
    if k > 0 {
      assert a[0] == a[..k][0] && b[0] == b[..k][0];
      assert a[1..][..k - 1] == a[..k][1..] && b[1..][..k - 1] == b[..k][1..];
      StrLessAt(a[1..], b[1..], k - 1);
    }
  }

  predicate StrictlyAscending(s: seq<string>) {
    forall i :: 0 <= i < |s| - 1 ==> StrLess(s[i], s[i + 1])
  }

  /** A strictly ascending sequence is ordered between any two positions,
      and so holds no duplicates. */
  lemma {:induction false} AscendingOrdered(s: seq<string>, i: nat, j: nat)
    requires StrictlyAscending(s) && i < j < |s|
    ensures StrLess(s[i], s[j]) && s[i] != s[j]
    decreases j - i
  {
    if j > i + 1 {
      AscendingOrdered(s, i + 1, j);
      StrLessTransitive(s[i], s[i + 1], s[j]);
    }
    StrLessIrreflexive(s[i]);
  }

  lemma {:induction false} StrLessAsymmetric(a: string, b: string)
    requires StrLess(a, b)
    ensures !StrLess(b, a)
  {
    if a != [] && b != [] && a[0] == b[0] {
      StrLessAsymmetric(a[1..], b[1..]);
    }
  }

  /** The head of a strictly ascending sequence is below every other
      element. */
  lemma HeadIsLeast(s: seq<string>, x: string)
    requires StrictlyAscending(s) && x in s && x != s[0]
    ensures StrLess(s[0], x)
  {
    var j :| 0 <= j < |s| && s[j] == x;
    AscendingOrdered(s, 0, j);
  }

  /** Two strictly ascending sequences with the same elements are equal. */
  lemma {:induction false} AscendingUnique(a: seq<string>, b: seq<string>)
    requires StrictlyAscending(a) && StrictlyAscending(b)
    requires forall x :: x in a <==> x in b
    ensures a == b
  {
    if a != [] { assert a[0] in a; }
    if b != [] { assert b[0] in b; }
    if a != [] && b != [] {
      if a[0] != b[0] {
        HeadIsLeast(b, a[0]);
        HeadIsLeast(a, b[0]);
        StrLessAsymmetric(a[0], b[0]);
        assert false;
      }
      forall x ensures x in a[1..] <==> x in b[1..] {
        assert a == [a[0]] + a[1..] && b == [b[0]] + b[1..];
        if x in a[1..] {
          var j :| 1 <= j < |a| && a[j] == x;
          AscendingOrdered(a, 0, j);
          assert x in b && x != b[0];
        }
        if x in b[1..] {
          var j :| 1 <= j < |b| && b[j] == x;
          AscendingOrdered(b, 0, j);
          assert x in a && x != a[0];
        }
      }
      AscendingUnique(a[1..], b[1..]);
    }
  }

  /** Inserts `x` into a strictly ascending sequence, keeping it strictly
      ascending and adding nothing when `x` is already there. */
  function Insert(x: string, s: seq<string>): (r: seq<string>)
    requires StrictlyAscending(s)
    ensures StrictlyAscending(r)
    ensures forall y :: y in r <==> y == x || y in s
    ensures |r| > 0 && (r[0] == x || (s != [] && r[0] == s[0]))
  {
    if s == [] then [x]
    else if x == s[0] then s
    else if StrLess(x, s[0]) then [x] + s
    else
      StrLessTotal(x, s[0]);
      [s[0]] + Insert(x, s[1..])
  }

  /** `Array(Set(s)).sorted()`: the distinct elements of `s` in ascending
      order. */
  function SortedSet(s: seq<string>): (r: seq<string>)
    ensures StrictlyAscending(r)
    ensures forall y :: y in r <==> y in s
  {
    if s == [] then []
    else
      var r := Insert(s[|s| - 1], SortedSet(s[..|s| - 1]));
      assert s == s[..|s| - 1] + [s[|s| - 1]];
      r
  }

  lemma AppendAssociates<T>(a: seq<T>, b: seq<T>, c: seq<T>)
    ensures (a + b) + c == a + (b + c)
  {
  }
}

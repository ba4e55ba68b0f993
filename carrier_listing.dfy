/**
 * The carrier catalogue route (`GET /api/operadoras`): every storage folder
 * `processados/<key>/` becomes a `{label, value}` pair, the value being the
 * folder's key and the label a display name derived from it.
 */
module CarrierListing {
  import opened Options
  import opened Text

  /** One entry of the carrier list: its `label` (display name) and its `value` (storage key). */
  datatype Carrier = Carrier(labelText: string, value: string)

  /** The storage root under which every carrier has a folder. */
  const Root: string := "processados/"

  /** The fixed error body of a failed listing. */
  const ListingError: string := "Falha ao buscar dados no S3"

  /** What the storage listing call produced: a failure, or its `CommonPrefixes` (possibly absent). */
  datatype Listing = ListingFailed | Listed(commonPrefixes: Option<seq<string>>)

  /** The route's answer: the carrier array, or status 500 with an error body. */
  datatype ListResponse = Carriers(carriers: seq<Carrier>) | ServerError(status: int, error: string)

  /** The storage key of a folder: its first `processados/` removed, then its first `/`. */
  function CarrierKey(prefix: string): string {
    ReplaceFirst(ReplaceFirst(prefix, Root, ""), "/", "")
  }

  /** A folder named `processados/<name>/`, with no `/` inside `name`, has key `name`. */
  lemma CarrierKeyOfFolder(name: string)
    requires '/' !in name
    ensures CarrierKey(Root + name + "/") == name
  {
    var prefix := Root + name + "/";
    assert OccursAt(prefix, Root, 0);
    assert IndexFrom(prefix, Root, 0) == Some(0);
    var stripped := ReplaceFirst(prefix, Root, "");
    assert stripped == name + "/";
    assert OccursAt(stripped, "/", |name|);
    forall j: nat | j < |name| ensures !OccursAt(stripped, "/", j) {
      assert stripped[j..j + 1] == [name[j]];
    }
    assert IndexFrom(stripped, "/", 0) == Some(|name|);
    assert stripped[..|name|] == name;
  }

  /** `name.replace(/_/g, " ")`. */
  function SpacesForUnderscores(s: string): string {
    seq(|s|, k requires 0 <= k < |s| => if s[k] == '_' then ' ' else s[k])
  }

  /** `\b\w` matches at index `i`: a word character that starts the string or follows a non-word character. */
  predicate StartsWord(s: string, i: nat)
    requires i < |s|
  {
    IsWordChar(s[i]) && (i == 0 || !IsWordChar(s[i - 1]))
  }

  /**
   * The scan `replace(/\b\w/g, l => l.toUpperCase())` performs, left to right;
   * `afterWord` tells whether the character before `s` was a word character.
   */
  function CapitalizeFrom(s: string, afterWord: bool): string {
    if s == [] then []
    else
      var c := if IsWordChar(s[0]) && !afterWord then UpperAscii(s[0]) else s[0];
      [c] + CapitalizeFrom(s[1..], IsWordChar(s[0]))
  }

  function CapitalizeWords(s: string): string {
    CapitalizeFrom(s, false)
  }

  /** The character at `i` starts a word, given whether the text before `s` ended in a word character. */
  predicate StartsWordAfter(s: string, i: nat, afterWord: bool)
    requires i < |s|
  {
    IsWordChar(s[i]) && (if i == 0 then !afterWord else !IsWordChar(s[i - 1]))
  }

  lemma {:induction false} CapitalizeFromAt(s: string, afterWord: bool)
    ensures |CapitalizeFrom(s, afterWord)| == |s|
    ensures forall i :: 0 <= i < |s| ==>
      CapitalizeFrom(s, afterWord)[i] == if StartsWordAfter(s, i, afterWord) then UpperAscii(s[i]) else s[i]
  {
    if s != [] {
      var rest := s[1..];
      CapitalizeFromAt(rest, IsWordChar(s[0]));
      var r := CapitalizeFrom(s, afterWord);
      assert r == [if StartsWordAfter(s, 0, afterWord) then UpperAscii(s[0]) else s[0]]
        + CapitalizeFrom(rest, IsWordChar(s[0]));
      forall i | 1 <= i < |s|
        ensures r[i] == if StartsWordAfter(s, i, afterWord) then UpperAscii(s[i]) else s[i]
      {
        assert r[i] == CapitalizeFrom(rest, IsWordChar(s[0]))[i - 1];
        assert rest[i - 1] == s[i];
        assert StartsWordAfter(rest, i - 1, IsWordChar(s[0])) == StartsWordAfter(s, i, afterWord);
      }
    }
  }

  /** Capitalising changes exactly the word-initial characters, to upper case. */
  lemma CapitalizeWordsAt(s: string)
    ensures |CapitalizeWords(s)| == |s|
    ensures forall i :: 0 <= i < |s| ==>
      CapitalizeWords(s)[i] == if StartsWord(s, i) then UpperAscii(s[i]) else s[i]
  {
    CapitalizeFromAt(s, false);
    forall i | 0 <= i < |s|
      ensures CapitalizeWords(s)[i] == if StartsWord(s, i) then UpperAscii(s[i]) else s[i]
    {
      assert StartsWord(s, i) == StartsWordAfter(s, i, false);
    }
  }

  /** The display name of a carrier key: underscores become spaces, then every word initial is upper-cased. */
  function Label(value: string): string {
    CapitalizeWords(SpacesForUnderscores(value))
  }

  /**
   * Character `i` of `value` begins a word of the label: a word character other
   * than `_` that is first, or follows a non-word character or an underscore.
   */
  predicate IsInitial(value: string, i: nat)
    requires i < |value|
  {
    IsWordChar(value[i]) && value[i] != '_' &&
    (i == 0 || !IsWordChar(value[i - 1]) || value[i - 1] == '_')
  }

  /**
   * The label has the value's length and differs from it only at underscores
   * (now spaces) and at word initials (now upper case).
   */
  lemma LabelAt(value: string)
    ensures |Label(value)| == |value|
    ensures forall i :: 0 <= i < |value| ==>
      Label(value)[i] ==
        if value[i] == '_' then ' '
        else if IsInitial(value, i) then UpperAscii(value[i])
        else value[i]
  {
    var spaced := SpacesForUnderscores(value);
    CapitalizeWordsAt(spaced);
    forall i | 0 <= i < |value|
      ensures StartsWord(spaced, i) == IsInitial(value, i)
    {
      if i > 0 { assert spaced[i - 1] == if value[i - 1] == '_' then ' ' else value[i - 1]; }
    }
  }

  /** No underscore survives in a label. */
  lemma LabelHasNoUnderscore(value: string)
    ensures '_' !in Label(value)
  {
    LabelAt(value);
    var l := Label(value);
    forall i | 0 <= i < |l| ensures l[i] != '_' {
      if value[i] != '_' && IsInitial(value, i) {
        assert 'a' <= value[i] <= 'z' ==> 'A' <= UpperAscii(value[i]) <= 'Z';
      }
    }
  }

  /** Formatting an already formatted label changes nothing. */
  lemma LabelIdempotent(value: string)
    ensures Label(Label(value)) == Label(value)
  {
    var l := Label(value);
    LabelHasNoUnderscore(value);
    LabelAt(value);
    LabelAt(l);
    forall i | 0 <= i < |l| ensures Label(l)[i] == l[i] {
      // the word structure of the label is that of the spaced value, and
      // upper-casing an upper-cased initial is the identity
      if i > 0 {
        assert IsWordChar(l[i - 1]) == (IsWordChar(value[i - 1]) && value[i - 1] != '_');
      }
      assert IsWordChar(l[i]) == (IsWordChar(value[i]) && value[i] != '_');
    }
  }

  /** The example in the route's own comment. */
  lemma LabelExample()
    ensures Label("aurora_saude") == "Aurora Saude"
  {
    LabelAt("aurora_saude");
  }

  /** `\w` is ASCII only, so a letter after a non-ASCII letter counts as a word initial. */
  lemma LabelNonAsciiExample()
    ensures Label("saúde") == "SaúDe"
  {
    LabelAt("saúde");
  }

  /** The `{label, value}` pair of one folder. */
  function ToCarrier(prefix: string): (c: Carrier)
    ensures c.value == CarrierKey(prefix) && c.labelText == Label(c.value)
  {
    var name := CarrierKey(prefix);
    Carrier(Label(name), name)
  }

  /**
   * The route's response: one carrier per folder, in listing order; any failure,
   * including an absent `CommonPrefixes` (the `.map` throws), yields the fixed 500 body.
   */
  function ListCarriers(listing: Listing): (r: ListResponse)
    ensures listing.ListingFailed? || listing.commonPrefixes.None? ==> r == ServerError(500, ListingError)
    ensures listing.Listed? && listing.commonPrefixes.Some? ==>
      var prefixes := listing.commonPrefixes.value;
      r.Carriers? && |r.carriers| == |prefixes| &&
      forall i :: 0 <= i < |prefixes| ==>
        r.carriers[i].value == CarrierKey(prefixes[i]) && r.carriers[i].labelText == Label(r.carriers[i].value)
    ensures listing == Listed(Some([])) ==> r == Carriers([])
  {
    match listing
    case ListingFailed => ServerError(500, ListingError)
    case Listed(None) => ServerError(500, ListingError)
    case Listed(Some(prefixes)) => Carriers(seq(|prefixes|, i requires 0 <= i < |prefixes| => ToCarrier(prefixes[i])))
  }
}

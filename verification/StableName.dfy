/** Names built from free text: normalised, joined, bounded, and hashed when that loses something. */
module StableName {
  import opened Wrappers
  import opened Whitespace

  datatype Profile = IdProfile | PathSegmentProfile | TmuxWindowProfile

  datatype HashMode = Auto | Always

  datatype NameInput = NameInput(
    profile: Profile,
    prefix: Option<string>,
    display: seq<string>,
    maxLength: Option<int>,
    hashLength: Option<int>,
    hash: HashMode)

  function Separator(profile: Profile): char {
    if profile.IdProfile? then '_' else '-'
  }

  function Fallback(profile: Profile): string {
    if profile.TmuxWindowProfile? then "worktree" else "item"
  }

  function DefaultMaxLength(profile: Profile): int {
    if profile.TmuxWindowProfile? then 48 else 96
  }

  const DEFAULT_HASH_LENGTH := 10

  predicate IsLowercasing(profile: Profile) {
    !profile.IdProfile?
  }

  predicate IsUpper(c: char) { 'A' <= c <= 'Z' }

  predicate IsLowerOrDigit(c: char) { 'a' <= c <= 'z' || '0' <= c <= '9' }

  predicate IsAllowed(profile: Profile, c: char) {
    match profile
    case IdProfile => IsLowerOrDigit(c) || IsUpper(c) || c == '.' || c == '_' || c == ':' || c == '-'
    case PathSegmentProfile => IsLowerOrDigit(c) || IsUpper(c) || c == '.' || c == '_' || c == '-'
    case TmuxWindowProfile => IsLowerOrDigit(c) || c == '.' || c == '_' || c == '-'
  }

  /** toLowerCase(), which this model leaves open outside ASCII. */
  type Lowercase = string -> string

  function LowerChar(c: char): char {
    if IsUpper(c) then (c as int + 32) as char else c
  }

  function AsciiLower(text: string): (r: string)
    ensures |r| == |text|
  {
    seq(|text|, i requires 0 <= i < |text| => LowerChar(text[i]))
  }

  predicate IsAscii(text: string) {
    forall i :: 0 <= i < |text| ==> text[i] as int < 128
  }

  ghost predicate IsLowercase(lower: Lowercase) {
    && (forall text :: IsAscii(text) ==> lower(text) == AsciiLower(text))
    && (forall text, i :: 0 <= i < |lower(text)| ==> !IsUpper(lower(text)[i]))
  }

  // ---- Normalisation ----

  /** text.slice(0, end): a negative end counts from the right. */
  function Slice(text: string, end: int): (r: string)
    ensures r <= text
    ensures 0 <= end ==> |r| == if end <= |text| then end else |text|
  {
    if end >= |text| then text else if end >= 0 then text[..end] else if |text| + end > 0 then text[..|text| + end] else ""
  }

  function Replace(text: string, profile: Profile): (r: string)
    ensures |r| == |text|
  {
    seq(|text|, i requires 0 <= i < |text| => if IsAllowed(profile, text[i]) then text[i] else Separator(profile))
  }

  function Collapse(text: string, separator: char): (r: string)
    ensures |r| <= |text|
    ensures r != [] <==> text != []
    ensures r != [] ==> r[0] == text[0]
  {
    if |text| < 2 then text
    else if text[0] == separator && text[1] == separator then Collapse(text[1..], separator)
    else [text[0]] + Collapse(text[1..], separator)
  }

  function TrimLeft(text: string, separator: char): string {
    if text != "" && text[0] == separator then TrimLeft(text[1..], separator) else text
  }

  function TrimRight(text: string, separator: char): string {
    if text != "" && text[|text| - 1] == separator then TrimRight(text[..|text| - 1], separator) else text
  }

  function TrimSeparators(text: string, separator: char): string {
    TrimRight(TrimLeft(text, separator), separator)
  }

  datatype NamePart = NamePart(value: string, changed: bool)

  function NormalizeNamePart(part: string, profile: Profile, lower: Lowercase): NamePart {
    var raw := Trim(part);
    var prepared := if IsLowercasing(profile) then lower(raw) else raw;
    var collapsed := Collapse(Replace(prepared, profile), Separator(profile));
    var trimmed := TrimSeparators(collapsed, Separator(profile));
    var normalized := if trimmed == "" then Fallback(profile) else trimmed;
    NamePart(normalized, normalized != raw)
  }

  function Join(parts: seq<string>, separator: char): string {
    if parts == [] then ""
    else if |parts| == 1 then parts[0]
    else Join(parts[..|parts| - 1], separator) + [separator] + parts[|parts| - 1]
  }

  function NonEmpty(parts: seq<string>): seq<string> {
    if parts == [] then []
    else NonEmpty(parts[..|parts| - 1]) + if parts[|parts| - 1] == "" then [] else [parts[|parts| - 1]]
  }

  function CompactParts(parts: seq<string>, separator: char): string {
    TrimSeparators(Join(NonEmpty(parts), separator), separator)
  }

  function TruncateName(text: string, maxLength: int, separator: char): string {
    if |text| <= maxLength then text else TrimSeparators(Slice(text, maxLength), separator)
  }

  // ---- stableName ----

  function Parts(input: NameInput): seq<string> {
    (if input.prefix.Some? then [input.prefix.value] else []) + input.display
  }

  function NormalizedParts(input: NameInput, lower: Lowercase): (r: seq<NamePart>)
    ensures |r| == |Parts(input)|
  {
    var parts := Parts(input);
    seq(|parts|, i requires 0 <= i < |parts| => NormalizeNamePart(parts[i], input.profile, lower))
  }

  function Values(parts: seq<NamePart>): (r: seq<string>)
    ensures |r| == |parts|
  {
    seq(|parts|, i requires 0 <= i < |parts| => parts[i].value)
  }

  function Base(input: NameInput, lower: Lowercase): string {
    var compact := CompactParts(Values(NormalizedParts(input, lower)), Separator(input.profile));
    if compact == "" then Fallback(input.profile) else compact
  }

  function MaxLength(input: NameInput): int {
    input.maxLength.Or(DefaultMaxLength(input.profile))
  }

  /** The first characters of the hexadecimal digest of the unique parts. */
  function Hash(input: NameInput, digest: string): string {
    Slice(digest, input.hashLength.Or(DEFAULT_HASH_LENGTH))
  }

  predicate NeedsHash(input: NameInput, lower: Lowercase) {
    || input.hash.Always?
    || (exists i :: 0 <= i < |Parts(input)| && NormalizedParts(input, lower)[i].changed)
    || |Base(input, lower)| > MaxLength(input)
  }

  function PlainName(base: string, maxLength: int, profile: Profile): string {
    var name := TruncateName(base, maxLength, Separator(profile));
    if name == "" then Slice(Fallback(profile), maxLength) else name
  }

  function HashedName(base: string, maxLength: int, hash: string, profile: Profile): string {
    var suffix := [Separator(profile)] + hash;
    if maxLength <= |suffix| then Slice(hash, maxLength)
    else
      var head := TruncateName(base, maxLength - |suffix|, Separator(profile));
      (if head == "" then Fallback(profile) else head) + suffix
  }

  function StableNameOf(input: NameInput, lower: Lowercase, digest: string): string {
    if NeedsHash(input, lower) then HashedName(Base(input, lower), MaxLength(input), Hash(input, digest), input.profile)
    else PlainName(Base(input, lower), MaxLength(input), input.profile)
  }
}

/** What every stable name satisfies, and when a name is left as it was given. */
module StableNameTheorems {
  import opened Wrappers
  import opened Whitespace
  import opened StableName

  // ---- Clean texts ----

  ghost predicate HasNoDouble(text: string, separator: char) {
    forall i, j :: 0 <= i && j == i + 1 && j < |text| ==> text[i] != separator || text[j] != separator
  }

  predicate HasNoEdge(text: string, separator: char) {
    text != "" ==> text[0] != separator && text[|text| - 1] != separator
  }

  ghost predicate IsClean(text: string, separator: char) {
    HasNoDouble(text, separator) && HasNoEdge(text, separator)
  }

  predicate AllAllowed(text: string, profile: Profile) {
    forall i :: 0 <= i < |text| ==> IsAllowed(profile, text[i]) && !(IsLowercasing(profile) && IsUpper(text[i]))
  }

  /** The part of a name that a normal text makes up by itself. */
  ghost predicate IsNormal(text: string, profile: Profile) {
    text != "" && IsClean(text, Separator(profile)) && AllAllowed(text, profile)
  }

  // ---- Collapsing and trimming ----

  lemma {:induction false} CollapseRemovesDoubles(text: string, separator: char)
    ensures HasNoDouble(Collapse(text, separator), separator)
    ensures forall c :: c in Collapse(text, separator) ==> c in text
    ensures |Collapse(text, separator)| == |text| <==> HasNoDouble(text, separator)
    ensures HasNoDouble(text, separator) ==> Collapse(text, separator) == text
  {
    if |text| >= 2 {
      var rest := text[1..];
      CollapseRemovesDoubles(rest, separator);
      var r := Collapse(rest, separator);
      assert text == [text[0]] + rest;
      if text[0] == separator && text[1] == separator {
      } else {
        assert HasNoDouble(text, separator) <==> HasNoDouble(rest, separator) by {
          if HasNoDouble(rest, separator) {
            forall i, j | 0 <= i && j == i + 1 && j < |text| ensures text[i] != separator || text[j] != separator {
              if i > 0 { assert text[i] == rest[i - 1] && text[j] == rest[j - 1]; }
            }
          }
          if HasNoDouble(text, separator) {
            forall i, j | 0 <= i && j == i + 1 && j < |rest| ensures rest[i] != separator || rest[j] != separator {
              assert rest[i] == text[i + 1] && rest[j] == text[j + 1];
            }
          }
        }
        var all := [text[0]] + r;
        forall i, j | 0 <= i && j == i + 1 && j < |all| ensures all[i] != separator || all[j] != separator {
          if i == 0 { assert all[1] == r[0] == text[1]; } else { assert all[i] == r[i - 1] && all[j] == r[j - 1]; }
        }
      }
    }
  }

  lemma {:induction false} TrimLeftIsSuffix(text: string, separator: char) returns (k: nat)
    ensures k <= |text| && TrimLeft(text, separator) == text[k..]
    ensures k < |text| ==> text[k] != separator
    ensures forall i :: 0 <= i < k ==> text[i] == separator
  {
    if text != "" && text[0] == separator {
      k := TrimLeftIsSuffix(text[1..], separator);
      k := k + 1;
      assert forall i :: 0 < i < k ==> text[i] == text[1..][i - 1];
    } else {
      k := 0;
    }
  }

  lemma {:induction false} TrimRightIsPrefix(text: string, separator: char) returns (k: nat)
    ensures k <= |text| && TrimRight(text, separator) == text[..k]
    ensures k > 0 ==> text[k - 1] != separator
    ensures forall i :: k <= i < |text| ==> text[i] == separator
  {
    if text != "" && text[|text| - 1] == separator {
      k := TrimRightIsPrefix(text[..|text| - 1], separator);
    } else {
      k := |text|;
    }
  }

  lemma {:induction false} InfixHasNoDouble(text: string, a: nat, b: nat, separator: char)
    requires a <= b <= |text| && HasNoDouble(text, separator)
    ensures HasNoDouble(text[a..b], separator)
  {
    forall i, j | 0 <= i && j == i + 1 && j < b - a ensures text[a..b][i] != separator || text[a..b][j] != separator {
      assert text[a..b][i] == text[a + i] && text[a..b][j] == text[a + j];
    }
  }

  /** Trimming cuts separators off both ends and nothing else. */
  lemma {:induction false} TrimmedIsInfix(text: string, separator: char) returns (a: nat, b: nat)
    ensures a <= b <= |text| && TrimSeparators(text, separator) == text[a..b]
    ensures HasNoEdge(text[a..b], separator)
    ensures HasNoDouble(text, separator) ==> HasNoDouble(text[a..b], separator)
    ensures HasNoEdge(text, separator) ==> text[a..b] == text
    ensures (exists i :: 0 <= i < |text| && text[i] != separator) ==> a < b
  {
    a := TrimLeftIsSuffix(text, separator);
    var k := TrimRightIsPrefix(text[a..], separator);
    b := a + k;
    assert text[a..][..k] == text[a..b];
    assert forall i :: a <= i < |text| ==> text[i] == text[a..][i - a];
    assert forall i :: b <= i < |text| ==> text[i] == separator;
    if HasNoDouble(text, separator) { InfixHasNoDouble(text, a, b, separator); }
    if HasNoEdge(text, separator) && text != "" {
      assert a == 0 && b == |text|;
    }
  }

  lemma AllowedAfterTrim(text: string, profile: Profile)
    requires AllAllowed(text, profile)
    ensures AllAllowed(TrimSeparators(text, Separator(profile)), profile)
  {
    var a, b := TrimmedIsInfix(text, Separator(profile));
  }

  // ---- One part ----

  lemma FallbackIsNormal(profile: Profile)
    ensures IsNormal(Fallback(profile), profile)
  {
  }

  lemma ReplacedIsAllowed(text: string, profile: Profile)
    requires IsLowercasing(profile) ==> forall i :: 0 <= i < |text| ==> !IsUpper(text[i])
    ensures AllAllowed(Replace(text, profile), profile)
  {
  }

  lemma PartIsNormal(part: string, profile: Profile, lower: Lowercase)
    requires IsLowercase(lower)
    ensures IsNormal(NormalizeNamePart(part, profile, lower).value, profile)
  {
    var raw := Trim(part);
    var prepared := if IsLowercasing(profile) then lower(raw) else raw;
    ReplacedIsAllowed(prepared, profile);
    var replaced := Replace(prepared, profile);
    CollapseRemovesDoubles(replaced, Separator(profile));
    var collapsed := Collapse(replaced, Separator(profile));
    forall i | 0 <= i < |collapsed| ensures IsAllowed(profile, collapsed[i]) && !(IsLowercasing(profile) && IsUpper(collapsed[i])) {
      assert collapsed[i] in collapsed && collapsed[i] in replaced;
    }
    AllowedAfterTrim(collapsed, profile);
    var a, b := TrimmedIsInfix(collapsed, Separator(profile));
    FallbackIsNormal(profile);
  }

  lemma NormalSurvivesReplacing(text: string, profile: Profile, lower: Lowercase)
    requires IsLowercase(lower) && AllAllowed(text, profile)
    ensures Replace(if IsLowercasing(profile) then lower(text) else text, profile) == text
  {
  }

  /** A part counts as unchanged exactly when, apart from spaces around it, it was normal already. */
  lemma UnchangedIffNormal(part: string, profile: Profile, lower: Lowercase)
    requires IsLowercase(lower)
    ensures !NormalizeNamePart(part, profile, lower).changed <==> IsNormal(Trim(part), profile)
  {
    var raw, separator := Trim(part), Separator(profile);
    PartIsNormal(part, profile, lower);
    if IsNormal(raw, profile) {
      NormalSurvivesReplacing(raw, profile, lower);
      CollapseRemovesDoubles(raw, separator);
      var a, b := TrimmedIsInfix(raw, separator);
    }
  }

  // ---- The joined base ----

  lemma {:induction false} NothingEmpty(parts: seq<string>)
    requires forall i :: 0 <= i < |parts| ==> parts[i] != ""
    ensures NonEmpty(parts) == parts
  {
    if parts != [] { NothingEmpty(parts[..|parts| - 1]); }
  }

  lemma JoinTwo(a: string, b: string, profile: Profile)
    requires IsNormal(a, profile) && IsNormal(b, profile)
    ensures IsNormal(a + [Separator(profile)] + b, profile)
  {
  }

  lemma {:induction false} JoinIsNormal(parts: seq<string>, profile: Profile)
    requires parts != [] && forall i :: 0 <= i < |parts| ==> IsNormal(parts[i], profile)
    ensures IsNormal(Join(parts, Separator(profile)), profile)
  {
    if |parts| <= 1 {
    } else {
      JoinIsNormal(parts[..|parts| - 1], profile);
      JoinTwo(Join(parts[..|parts| - 1], Separator(profile)), parts[|parts| - 1], profile);
    }
  }

  /** The base is the join of the normalised parts, and normal itself. */
  lemma BaseIsNormal(input: NameInput, lower: Lowercase)
    requires IsLowercase(lower)
    ensures IsNormal(Base(input, lower), input.profile)
    ensures Parts(input) != [] ==> Base(input, lower) == Join(Values(NormalizedParts(input, lower)), Separator(input.profile))
  {
    var parts, profile := Values(NormalizedParts(input, lower)), input.profile;
    FallbackIsNormal(profile);
    forall i | 0 <= i < |parts| ensures IsNormal(parts[i], profile) { PartIsNormal(Parts(input)[i], profile, lower); }
    NothingEmpty(parts);
    if parts != [] {
      JoinIsNormal(parts, profile);
      var a, b := TrimmedIsInfix(Join(parts, Separator(profile)), Separator(profile));
    } else {
      var a, b := TrimmedIsInfix("", Separator(profile));
    }
  }

  // ---- The name ----

  predicate IsHexDigest(digest: string) {
    |digest| == 64 && forall i :: 0 <= i < |digest| ==> '0' <= digest[i] <= '9' || 'a' <= digest[i] <= 'f'
  }

  /** A shortened normal text of at least one character is normal: it never shrinks to nothing. */
  lemma TruncatedIsNormal(text: string, maxLength: int, profile: Profile)
    requires IsNormal(text, profile) && maxLength >= 1
    ensures IsNormal(TruncateName(text, maxLength, Separator(profile)), profile)
    ensures |TruncateName(text, maxLength, Separator(profile))| <= maxLength
  {
    if |text| > maxLength {
      var cut, separator := Slice(text, maxLength), Separator(profile);
      assert cut[0] == text[0];
      assert AllAllowed(cut, profile);
      assert HasNoDouble(cut, separator) by {
        forall i, j | 0 <= i && j == i + 1 && j < |cut| ensures cut[i] != separator || cut[j] != separator {
          assert cut[i] == text[i] && cut[j] == text[j];
        }
      }
      var a, b := TrimmedIsInfix(cut, separator);
      AllowedAfterTrim(cut, profile);
    }
  }

  lemma HexIsNormal(hash: string, profile: Profile)
    requires hash != "" && forall i :: 0 <= i < |hash| ==> '0' <= hash[i] <= '9' || 'a' <= hash[i] <= 'f'
    ensures IsNormal(hash, profile)
  {
  }

  /** The fallbacks inside stableName are never taken: without a hash the name is the base... */
  lemma UnhashedNameIsTheBase(input: NameInput, lower: Lowercase, digest: string)
    requires IsLowercase(lower) && !NeedsHash(input, lower)
    ensures StableNameOf(input, lower, digest) == Base(input, lower)
  {
  }

  /** ...and with one it is a beginning of the base and the hash, unless there is room for the hash only. */
  lemma HashedNameIsHeadAndHash(base: string, maxLength: int, hash: string, profile: Profile)
    requires IsNormal(base, profile)
    ensures var separator, room := Separator(profile), maxLength - 1 - |hash|;
            HashedName(base, maxLength, hash, profile) ==
              if room <= 0 then Slice(hash, maxLength) else TruncateName(base, room, separator) + [separator] + hash
  {
    var separator, room := Separator(profile), maxLength - 1 - |hash|;
    if room >= 1 {
      TruncatedIsNormal(base, room, profile);
      var head := TruncateName(base, room, separator);
      assert head + ([separator] + hash) == head + [separator] + hash;
    }
  }

  lemma HashedNameIsNormal(base: string, maxLength: int, hash: string, profile: Profile)
    requires IsNormal(base, profile) && maxLength >= 1
    requires hash != "" && forall i :: 0 <= i < |hash| ==> '0' <= hash[i] <= '9' || 'a' <= hash[i] <= 'f'
    ensures |HashedName(base, maxLength, hash, profile)| <= maxLength
    ensures IsNormal(HashedName(base, maxLength, hash, profile), profile)
  {
    var room := maxLength - 1 - |hash|;
    HashedNameIsHeadAndHash(base, maxLength, hash, profile);
    if room >= 1 {
      TruncatedIsNormal(base, room, profile);
      HexIsNormal(hash, profile);
      JoinTwo(TruncateName(base, room, Separator(profile)), hash, profile);
    } else {
      HexIsNormal(Slice(hash, maxLength), profile);
    }
  }

  /**
   * Every stable name is within its limit and normal: not empty, of allowed characters only, without a leading,
   * trailing or doubled separator.
   */
  lemma NameIsBoundedAndNormal(input: NameInput, lower: Lowercase, digest: string)
    requires IsLowercase(lower) && IsHexDigest(digest)
    requires MaxLength(input) >= 1 && input.hashLength.Or(DEFAULT_HASH_LENGTH) >= 1
    ensures var name := StableNameOf(input, lower, digest); |name| <= MaxLength(input) && IsNormal(name, input.profile)
  {
    BaseIsNormal(input, lower);
    if NeedsHash(input, lower) {
      HashedNameIsNormal(Base(input, lower), MaxLength(input), Hash(input, digest), input.profile);
    } else {
      UnhashedNameIsTheBase(input, lower, digest);
    }
  }

  /** The parts as given, without the spaces around them. */
  function TrimmedParts(input: NameInput): (r: seq<string>)
    ensures |r| == |Parts(input)|
  {
    seq(|Parts(input)|, i requires 0 <= i < |Parts(input)| => Trim(Parts(input)[i]))
  }

  ghost predicate AllNormal(input: NameInput) {
    forall i :: 0 <= i < |Parts(input)| ==> IsNormal(TrimmedParts(input)[i], input.profile)
  }

  /** What the caller asked for: the parts joined as they are, or the fallback if there are none. */
  function PlainText(input: NameInput): string {
    if Parts(input) == [] then Fallback(input.profile) else Join(TrimmedParts(input), Separator(input.profile))
  }

  /** In auto mode a hash is left out exactly when every part was normal and the plain text fits. */
  lemma {:induction false} PlainIffNormalAndFits(input: NameInput, lower: Lowercase)
    requires IsLowercase(lower) && input.hash.Auto?
    ensures !NeedsHash(input, lower) <==> AllNormal(input) && |PlainText(input)| <= MaxLength(input)
  {
    forall i | 0 <= i < |Parts(input)|
      ensures NormalizedParts(input, lower)[i].changed <==> !IsNormal(TrimmedParts(input)[i], input.profile)
    {
      UnchangedIffNormal(Parts(input)[i], input.profile, lower);
    }
    if AllNormal(input) {
      NormalBaseIsPlain(input, lower);
    }
  }

  lemma NormalBaseIsPlain(input: NameInput, lower: Lowercase)
    requires IsLowercase(lower) && AllNormal(input)
    ensures Base(input, lower) == PlainText(input)
  {
    BaseIsNormal(input, lower);
    NormalPartsAreKept(input, lower);
    if Parts(input) == [] {
      var a, b := TrimmedIsInfix("", Separator(input.profile));
    }
  }

  lemma NormalPartsAreKept(input: NameInput, lower: Lowercase)
    requires IsLowercase(lower) && AllNormal(input)
    ensures Values(NormalizedParts(input, lower)) == TrimmedParts(input)
  {
    forall i | 0 <= i < |Parts(input)|
      ensures Values(NormalizedParts(input, lower))[i] == TrimmedParts(input)[i]
    {
      UnchangedIffNormal(Parts(input)[i], input.profile, lower);
    }
  }

  /** And then the name is the plain text. */
  lemma PlainNameIsThePlainText(input: NameInput, lower: Lowercase, digest: string)
    requires IsLowercase(lower) && !NeedsHash(input, lower)
    ensures StableNameOf(input, lower, digest) == PlainText(input)
  {
    PlainIffNormalAndFits(input, lower);
    UnhashedNameIsTheBase(input, lower, digest);
    NormalBaseIsPlain(input, lower);
  }

  /** Naming is idempotent: a name, taken as the only part under the same limits, is its own name. */
  lemma {:induction false} NamesAreTheirOwnNames(input: NameInput, lower: Lowercase, digest: string, other: string)
    requires IsLowercase(lower) && IsHexDigest(digest)
    requires MaxLength(input) >= 1 && input.hashLength.Or(DEFAULT_HASH_LENGTH) >= 1
    ensures var name := StableNameOf(input, lower, digest);
            StableNameOf(input.(prefix := None, display := [name], hash := Auto), lower, other) == name
  {
    NameIsBoundedAndNormal(input, lower, digest);
    var name := StableNameOf(input, lower, digest);
    var again := input.(prefix := None, display := [name], hash := Auto);
    assert Parts(again) == [name];
    TrimKeeps(name);
    assert TrimmedParts(again) == [name];
    PlainIffNormalAndFits(again, lower);
    PlainNameIsThePlainText(again, lower, other);
  }

  /** Hashed names of one profile and one pair of lengths agree only where their hashes do. */
  lemma {:induction false} HashedNamesAgreeOnlyIfHashesDo(
    baseA: string, baseB: string, maxLength: int, hashA: string, hashB: string, profile: Profile)
    requires IsNormal(baseA, profile) && IsNormal(baseB, profile) && |hashA| == |hashB| && maxLength >= 0
    requires HashedName(baseA, maxLength, hashA, profile) == HashedName(baseB, maxLength, hashB, profile)
    ensures Slice(hashA, maxLength) == Slice(hashB, maxLength)
  {
    HashedNameIsHeadAndHash(baseA, maxLength, hashA, profile);
    HashedNameIsHeadAndHash(baseB, maxLength, hashB, profile);
    if maxLength > 1 + |hashA| {
      var name := HashedName(baseA, maxLength, hashA, profile);
      assert name[|name| - |hashA|..] == hashA && name[|name| - |hashB|..] == hashB;
    }
  }

  lemma {:induction false} HashedNameOfA(lower: Lowercase, digest: string)
    requires IsLowercase(lower) && IsHexDigest(digest)
    ensures StableNameOf(NameInput(IdProfile, None, ["a"], None, None, Always), lower, digest) == "a_" + digest[..10]
  {
    var hashed := NameInput(IdProfile, None, ["a"], None, None, Always);
    BaseIsNormal(hashed, lower);
    assert IsNormal("a", IdProfile);
    TrimKeeps("a");
    assert Parts(hashed) == ["a"] && TrimmedParts(hashed) == ["a"];
    NormalPartsAreKept(hashed, lower);
    assert Base(hashed, lower) == "a";
    HashedNameIsHeadAndHash("a", 96, digest[..10], IdProfile);
  }

  /** A plain name can be the same as a hashed one: nothing keeps a given text from looking like a hashed name. */
  lemma {:induction false} PlainNameCanEqualAHashedOne(lower: Lowercase, digest: string)
    requires IsLowercase(lower) && IsHexDigest(digest)
    ensures var hashed := NameInput(IdProfile, None, ["a"], None, None, Always);
            var name := StableNameOf(hashed, lower, digest);
            name == "a_" + digest[..10] && StableNameOf(hashed.(display := [name], hash := Auto), lower, digest) == name
  {
    HashedNameOfA(lower, digest);
    NamesAreTheirOwnNames(NameInput(IdProfile, None, ["a"], None, None, Always), lower, digest, digest);
  }

  // ---- What a part becomes ----

  /** A character that ends up in a name as it is, and does not separate. */
  predicate IsWordChar(profile: Profile, c: char) {
    IsAllowed(profile, c) && c != Separator(profile)
  }

  /** The longest stretches of such characters, in order. */
  function Words(text: string, profile: Profile): (r: seq<string>)
    ensures text != "" && IsWordChar(profile, text[0]) ==> r != []
  {
    if text == "" then []
    else
      var rest := Words(text[1..], profile);
      if !IsWordChar(profile, text[0]) then rest
      else if |text| > 1 && IsWordChar(profile, text[1]) then [[text[0]] + rest[0]] + rest[1..]
      else [[text[0]]] + rest
  }

  lemma {:induction false} WordsOfReplaced(text: string, profile: Profile)
    ensures Words(Replace(text, profile), profile) == Words(text, profile)
  {
    if text == "" {
    } else {
      WordsOfReplaced(text[1..], profile);
      assert Replace(text, profile)[1..] == Replace(text[1..], profile);
    }
  }

  lemma {:induction false} WordsOfCollapsed(text: string, profile: Profile)
    ensures Words(Collapse(text, Separator(profile)), profile) == Words(text, profile)
  {
    var separator := Separator(profile);
    if |text| < 2 {
    } else {
      WordsOfCollapsed(text[1..], profile);
      if text[0] != separator || text[1] != separator {
        var rest := Collapse(text[1..], separator);
        assert ([text[0]] + rest)[1..] == rest;
      }
    }
  }

  lemma {:induction false} WordsOfTrimLeft(text: string, profile: Profile)
    ensures Words(TrimLeft(text, Separator(profile)), profile) == Words(text, profile)
  {
    if text != "" && text[0] == Separator(profile) { WordsOfTrimLeft(text[1..], profile); }
  }

  lemma {:induction false} WordsWithoutLastSeparator(text: string, profile: Profile)
    requires text != "" && text[|text| - 1] == Separator(profile)
    ensures Words(text[..|text| - 1], profile) == Words(text, profile)
  {
    if |text| == 1 {
      assert text[..0] == "" && text[1..] == "";
    } else {
      WordsWithoutLastSeparator(text[1..], profile);
      assert text[..|text| - 1][1..] == text[1..][..|text| - 2];
    }
  }

  lemma {:induction false} WordsOfTrimRight(text: string, profile: Profile)
    ensures Words(TrimRight(text, Separator(profile)), profile) == Words(text, profile)
  {
    if text != "" && text[|text| - 1] == Separator(profile) {
      WordsWithoutLastSeparator(text, profile);
      WordsOfTrimRight(text[..|text| - 1], profile);
    }
  }

  lemma {:induction false} JoinFromTheLeft(head: string, rest: seq<string>, separator: char)
    requires rest != []
    ensures Join([head] + rest, separator) == head + [separator] + Join(rest, separator)
  {
    var all, n := [head] + rest, |rest|;
    assert all[..n] == [head] + rest[..n - 1];
    if n == 1 {
    } else {
      JoinFromTheLeft(head, rest[..n - 1], separator);
      assert head + [separator] + Join(rest[..n - 1], separator) + [separator] + rest[n - 1] ==
             head + [separator] + (Join(rest[..n - 1], separator) + [separator] + rest[n - 1]);
    }
  }

  lemma {:induction false} JoinWithLongerHead(c: char, words: seq<string>, separator: char)
    requires words != []
    ensures Join([[c] + words[0]] + words[1..], separator) == [c] + Join(words, separator)
  {
    if |words| == 1 {
      assert [[c] + words[0]] + words[1..] == [[c] + words[0]];
    } else {
      JoinFromTheLeft([c] + words[0], words[1..], separator);
      JoinFromTheLeft(words[0], words[1..], separator);
      assert [words[0]] + words[1..] == words;
      assert [c] + words[0] + [separator] + Join(words[1..], separator) ==
             [c] + (words[0] + [separator] + Join(words[1..], separator));
    }
  }

  /** A normal text is its words, joined. */
  lemma {:induction false} NormalTextIsItsWords(text: string, profile: Profile)
    requires text != "" && IsClean(text, Separator(profile)) && forall i :: 0 <= i < |text| ==> IsAllowed(profile, text[i])
    ensures Words(text, profile) != [] && Join(Words(text, profile), Separator(profile)) == text
  {
    var separator := Separator(profile);
    if |text| == 1 {
      assert text[1..] == "" && text == [text[0]];
    } else if text[1] != separator {
      TailIsClean(text, 1, profile);
      NormalTextIsItsWords(text[1..], profile);
      JoinWithLongerHead(text[0], Words(text[1..], profile), separator);
      assert text == [text[0]] + text[1..];
    } else {
      TailIsClean(text, 2, profile);
      NormalTextIsItsWords(text[2..], profile);
      assert text[1..][1..] == text[2..];
      assert Words(text[1..], profile) == Words(text[2..], profile);
      JoinFromTheLeft([text[0]], Words(text[2..], profile), separator);
      assert text == [text[0]] + [text[1]] + text[2..];
    }
  }

  lemma {:induction false} TailIsClean(text: string, k: nat, profile: Profile)
    requires IsClean(text, Separator(profile)) && forall i :: 0 <= i < |text| ==> IsAllowed(profile, text[i])
    requires k < |text| && (text[k] != Separator(profile) || (0 < k && text[k - 1] == Separator(profile)))
    ensures IsClean(text[k..], Separator(profile)) && forall i :: 0 <= i < |text| - k ==> IsAllowed(profile, text[k..][i])
  {
    var separator := Separator(profile);
    InfixHasNoDouble(text, k, |text|, separator);
    assert text[k..|text|] == text[k..];
    if k > 0 && text[k - 1] == separator { assert text[k] != separator; }
  }

  /** Whatever the part: it becomes its words, joined by the separator, or the fallback if it has none. */
  lemma {:induction false} PartBecomesItsWords(part: string, profile: Profile, lower: Lowercase)
    requires IsLowercase(lower)
    ensures var text := if profile.IdProfile? then Trim(part) else lower(Trim(part));
            NormalizeNamePart(part, profile, lower).value ==
              if Words(text, profile) == [] then Fallback(profile) else Join(Words(text, profile), Separator(profile))
  {
    var text, separator := if profile.IdProfile? then Trim(part) else lower(Trim(part)), Separator(profile);
    var replaced := Replace(text, profile);
    var collapsed := Collapse(replaced, separator);
    var trimmed := TrimSeparators(collapsed, separator);
    WordsOfReplaced(text, profile);
    WordsOfCollapsed(replaced, profile);
    WordsOfTrimLeft(collapsed, profile);
    WordsOfTrimRight(TrimLeft(collapsed, separator), profile);
    assert Words(trimmed, profile) == Words(text, profile);
    if trimmed != "" {
      PartIsNormal(part, profile, lower);
      NormalTextIsItsWords(trimmed, profile);
    }
  }

  /** A normal text that is too long is cut at its limit, and the separator the cut may leave at its end is taken off. */
  lemma {:induction false} TruncatedAtTheLimit(text: string, maxLength: nat, profile: Profile)
    requires IsNormal(text, profile) && 1 <= maxLength < |text|
    ensures TruncateName(text, maxLength, Separator(profile)) ==
            if text[maxLength - 1] == Separator(profile) then text[..maxLength - 1] else text[..maxLength]
  {
    var separator, cut := Separator(profile), text[..maxLength];
    assert Slice(text, maxLength) == cut && cut[0] == text[0];
    assert TrimLeft(cut, separator) == cut && cut[maxLength - 1] == text[maxLength - 1];
    if text[maxLength - 1] == separator {
      var i := maxLength - 2;
      assert 0 <= i && text[i] != separator;
      var shorter := cut[..maxLength - 1];
      assert shorter == text[..maxLength - 1] && shorter[i] == text[i];
      assert TrimRight(shorter, separator) == shorter;
    }
  }

  /** The three profiles, spelled out. */
  lemma {:induction false} ProfilesAre(c: char)
    ensures Separator(IdProfile) == '_' && Separator(PathSegmentProfile) == '-' && Separator(TmuxWindowProfile) == '-'
    ensures Fallback(IdProfile) == "item" && Fallback(PathSegmentProfile) == "item" && Fallback(TmuxWindowProfile) == "worktree"
    ensures DefaultMaxLength(IdProfile) == 96 && DefaultMaxLength(PathSegmentProfile) == 96
    ensures DefaultMaxLength(TmuxWindowProfile) == 48 && DEFAULT_HASH_LENGTH == 10
    ensures !IsLowercasing(IdProfile) && IsLowercasing(PathSegmentProfile) && IsLowercasing(TmuxWindowProfile)
    ensures IsAllowed(TmuxWindowProfile, c) <==> c in "abcdefghijklmnopqrstuvwxyz0123456789._-"
    ensures IsAllowed(PathSegmentProfile, c) <==>
              IsAllowed(TmuxWindowProfile, c) || c in "ABCDEFGHIJKLMNOPQRSTUVWXYZ"
    ensures IsAllowed(IdProfile, c) <==> IsAllowed(PathSegmentProfile, c) || c == ':'
  {
  }

  /** What the caller may choose: a prefix, which comes first, the limit, and how much of the digest is taken. */
  lemma OptionsAre(input: NameInput, digest: string)
    ensures input.prefix.None? ==> Parts(input) == input.display
    ensures input.prefix.Some? ==> |Parts(input)| == |input.display| + 1 && Parts(input)[0] == input.prefix.value
    ensures input.prefix.Some? ==> Parts(input)[1..] == input.display
    ensures input.maxLength.Some? ==> MaxLength(input) == input.maxLength.value
    ensures input.maxLength.None? ==> MaxLength(input) == if input.profile.TmuxWindowProfile? then 48 else 96
    ensures input.hashLength.Some? && 0 <= input.hashLength.value <= |digest| ==>
              Hash(input, digest) == digest[..input.hashLength.value]
    ensures input.hashLength.None? && 10 <= |digest| ==> Hash(input, digest) == digest[..10]
  {
  }
}

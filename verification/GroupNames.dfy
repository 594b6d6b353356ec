/**
 Validation of a request to the shared state table, as both servers do it. Strings are sequences of code
 points; that SQLite gives back what it was given is assumed, which for a lone surrogate it may not do. NFC
 normalisation is a parameter with the two facts that section 1.4 of UAX #15 gives: it is idempotent, and a
 piece of a normalised string is normalised.
 */
module GroupNames {
  import opened Common
  import opened Strings

  type CodePoint = c: nat | c < 0x11_0000
  type Text = seq<CodePoint>

  const MAX_CONTENT_BYTES := 262_144
  const MAX_GROUP_CODE_POINTS := 64
  const MAX_GROUP_BYTES := 128
  const MAX_SAFE_INTEGER := 0x1F_FFFF_FFFF_FFFF

  /** An argument as it arrives from JSON. */
  datatype Argument = String(text: Text) | Number(value: real) | NonFinite | OtherValue

  datatype Program = SharedStateServer | HermesBridge

  datatype Rejection = BadGroup | BadContentType | ContentTooLong | BadContent | BadRevision

  /** White space and line terminators of ECMAScript, which `trim` removes. */
  predicate IsSpace(c: CodePoint) {
    || 0x09 <= c <= 0x0D || c == 0x20 || c == 0xA0 || c == 0x1680
    || 0x2000 <= c <= 0x200A || c == 0x2028 || c == 0x2029 || c == 0x202F || c == 0x205F || c == 0x3000
    || c == 0xFEFF
  }

  /** General categories Cc and Cf. */
  predicate IsControlOrFormat(c: CodePoint) {
    || c <= 0x1F || 0x7F <= c <= 0x9F || c == 0xAD
    || 0x600 <= c <= 0x605 || c == 0x61C || c == 0x6DD || c == 0x70F || 0x890 <= c <= 0x891 || c == 0x8E2
    || c == 0x180E || 0x200B <= c <= 0x200F || 0x202A <= c <= 0x202E || 0x2060 <= c <= 0x2064
    || 0x2066 <= c <= 0x206F || c == 0xFEFF || 0xFFF9 <= c <= 0xFFFB || c == 0x1_10BD || c == 0x1_10CD
    || 0x1_3430 <= c <= 0x1_343F || 0x1_BCA0 <= c <= 0x1_BCA3 || 0x1_D173 <= c <= 0x1_D17A
    || c == 0xE_0001 || 0xE_0020 <= c <= 0xE_007F
  }

  function Utf8Length(s: Text): nat {
    if s == [] then 0
    else
      var c := s[|s| - 1];
      Utf8Length(s[..|s| - 1]) + (if c < 0x80 then 1 else if c < 0x800 then 2 else if c < 0x1_0000 then 3 else 4)
  }

  /** `normalizeGroup`, the same code in both servers. */
  function NormalizeGroup(nfc: Text -> Text, value: Argument): Result<Text, Rejection> {
    match value
    case String(text) =>
      var group := Trim(nfc(text), IsSpace);
      if || |group| == 0 || |group| > MAX_GROUP_CODE_POINTS
         || Utf8Length(group) > MAX_GROUP_BYTES
         || exists i :: 0 <= i < |group| && IsControlOrFormat(group[i])
      then Err(BadGroup)
      else Ok(group)
    case _ => Err(BadGroup)
  }

  /** A non-negative safe integer, as an integer. */
  function SafeRevision(value: Argument): Option<nat> {
    match value
    case Number(r) =>
      if r.Floor as real == r && 0 <= r.Floor <= MAX_SAFE_INTEGER then Some(r.Floor) else None
    case _ => None
  }

  datatype SetInput = SetInput(group: Argument, content: Argument, expectedRevision: Argument)

  datatype SetRequest = SetRequest(key: Text, content: Text, expected: nat)

  /** The checks of `writeGroup`, in the order each program makes them. */
  function ValidateSet(program: Program, nfc: Text -> Text, input: SetInput): Result<SetRequest, Rejection> {
    match NormalizeGroup(nfc, input.group)
    case Err(e) => Err(e)
    case Ok(key) =>
      match program
      case SharedStateServer =>
        if !input.content.String? then Err(BadContentType)
        else if SafeRevision(input.expectedRevision).None? then Err(BadRevision)
        else if Utf8Length(input.content.text) > MAX_CONTENT_BYTES then Err(ContentTooLong)
        else Ok(SetRequest(key, input.content.text, SafeRevision(input.expectedRevision).value))
      case HermesBridge =>
        if !input.content.String? || Utf8Length(input.content.text) > MAX_CONTENT_BYTES then Err(BadContent)
        else if SafeRevision(input.expectedRevision).None? then Err(BadRevision)
        else Ok(SetRequest(key, input.content.text, SafeRevision(input.expectedRevision).value))
  }

  ghost predicate IsNormalizer(nfc: Text -> Text) {
    && (forall s: Text :: nfc(nfc(s)) == nfc(s))
    && (forall s: Text, i: nat, j: nat {:trigger nfc(s[i..j])} ::
          i <= j <= |s| && nfc(s) == s ==> nfc(s[i..j]) == s[i..j])
  }

  // ----- what a key is -----

  /** Not empty, no white space at its ends, within both size limits, and free of control and format characters. */
  ghost predicate GoodKey(key: Text) {
    && key != [] && !IsSpace(key[0]) && !IsSpace(key[|key| - 1])
    && |key| <= 64 && Utf8Length(key) <= 128
    && forall i :: 0 <= i < |key| ==> !IsControlOrFormat(key[i])
  }

  /** The key of a text is what white space surrounds in its normal form; it is accepted exactly if it is a good key. */
  lemma KeyIs(nfc: Text -> Text, text: Text, key: Text)
    ensures NormalizeGroup(nfc, String(text)) == Ok(key) <==> GoodKey(key) && exists i, j :: IsCore(nfc(text), IsSpace, key, i, j)
  {
    if key != [] {
      TrimIff(nfc(text), IsSpace, key);
    }
  }

  /** Every other argument is refused, for the one reason there is. */
  lemma RefusedIff(nfc: Text -> Text, value: Argument)
    ensures NormalizeGroup(nfc, value) == Err(BadGroup) <==>
            !value.String? || !exists key, i, j :: GoodKey(key) && IsCore(nfc(value.text), IsSpace, key, i, j)
    ensures NormalizeGroup(nfc, value).Err? ==> NormalizeGroup(nfc, value).error == BadGroup
  {
    if value.String? {
      if NormalizeGroup(nfc, value).Ok? {
        KeyIs(nfc, value.text, NormalizeGroup(nfc, value).value);
      }
      forall key, i: nat, j: nat | GoodKey(key) && IsCore(nfc(value.text), IsSpace, key, i, j) ensures NormalizeGroup(nfc, value).Ok? {
        KeyIs(nfc, value.text, key);
      }
    }
  }

  ghost predicate AllSpace(s: Text) {
    forall i :: 0 <= i < |s| ==> IsSpace(s[i])
  }

  lemma CoreIsNoSpace(text: Text, key: Text, i: nat, j: nat)
    requires IsCore(text, IsSpace, key, i, j) && IsTrimmed(key, IsSpace)
    ensures key != [] ==> !AllSpace(text)
  {
    assert key != [] ==> text[i] == key[0];
  }

  lemma CoreInWiderText(x: Text, before: Text, after: Text, key: Text, i: nat, j: nat)
    requires AllSpace(before) && AllSpace(after) && IsCore(x, IsSpace, key, i, j)
    ensures IsCore(before + x + after, IsSpace, key, |before| + i, |before| + j)
  {
    var wide := before + x + after;
    assert wide[|before| + i..|before| + j] == x[i..j];
    forall k | 0 <= k < |before| + i || |before| + j <= k < |wide| ensures IsSpace(wide[k]) {
      if |before| <= k < |before| + |x| { assert wide[k] == x[k - |before|]; }
    }
  }

  /** Two texts whose normal forms differ only in the white space around them name the same group, or none. */
  lemma SurroundingSpaceDoesNotMatter(nfc: Text -> Text, a: Text, b: Text, before: Text, after: Text)
    requires AllSpace(before) && AllSpace(after) && nfc(a) == before + nfc(b) + after
    ensures NormalizeGroup(nfc, String(a)) == NormalizeGroup(nfc, String(b))
  {
    var i, j := TrimIsSlice(nfc(b), IsSpace);
    var k, l := TrimIsSlice(nfc(a), IsSpace);
    var x, y := Trim(nfc(b), IsSpace), Trim(nfc(a), IsSpace);
    CoreInWiderText(nfc(b), before, after, x, i, j);
    if x != [] {
      CoreIsUnique(nfc(a), IsSpace, x, |before| + i, |before| + j, y, k, l);
    } else {
      assert AllSpace(nfc(a));
      CoreIsNoSpace(nfc(a), y, k, l);
    }
  }

  /** A key that was accepted once is accepted again, unchanged: stored names are their own normal form. */
  lemma NormalizeIsIdempotent(nfc: Text -> Text, value: Argument)
    requires IsNormalizer(nfc)
    requires NormalizeGroup(nfc, value).Ok?
    ensures var key := NormalizeGroup(nfc, value).value;
            NormalizeGroup(nfc, String(key)) == Ok(key)
  {
    var normal := nfc(value.text);
    var i, j := TrimIsSlice(normal, IsSpace);
    var key := NormalizeGroup(nfc, value).value;
    assert nfc(key) == key;
    TrimKeepsTrimmed(normal, IsSpace);
  }

  // ----- sizes and numbers -----

  /** The bytes of a code point in UTF-8: a first byte, and then six bits in each. */
  function EncodePoint(c: CodePoint): seq<nat> {
    var c1, c2, c3 := c / 0x40, c / 0x40 / 0x40, c / 0x40 / 0x40 / 0x40;
    if c < 0x80 then [c]
    else if c < 0x800 then [0xC0 + c1, 0x80 + c % 0x40]
    else if c < 0x1_0000 then [0xE0 + c2, 0x80 + c1 % 0x40, 0x80 + c % 0x40]
    else [0xF0 + c3, 0x80 + c2 % 0x40, 0x80 + c1 % 0x40, 0x80 + c % 0x40]
  }

  /** What the first byte of an encoding contributes, by the length it announces. */
  function FirstBits(byte: int, length: nat): int {
    if length == 1 then byte else if length == 2 then byte - 0xC0 else if length == 3 then byte - 0xE0 else byte - 0xF0
  }

  /** The value of the bits a sequence of bytes carries. */
  function DecodePoint(bytes: seq<nat>, length: nat): int
    requires bytes != []
  {
    if |bytes| == 1 then FirstBits(bytes[0], length)
    else DecodePoint(bytes[..|bytes| - 1], length) * 0x40 + bytes[|bytes| - 1] - 0x80
  }

  lemma DecodeNext(bytes: seq<nat>, byte: nat, length: nat)
    requires bytes != []
    ensures DecodePoint(bytes + [byte], length) == DecodePoint(bytes, length) * 0x40 + byte - 0x80
  {
    assert (bytes + [byte])[..|bytes|] == bytes;
  }

  lemma DecodesToItself(c: CodePoint)
    ensures DecodePoint(EncodePoint(c), |EncodePoint(c)|) == c
  {
    var c1, c2, c3 := c / 0x40, c / 0x40 / 0x40, c / 0x40 / 0x40 / 0x40;
    var d0, d1, d2 := 0x80 + c % 0x40, 0x80 + c1 % 0x40, 0x80 + c2 % 0x40;
    if c < 0x80 {
    } else if c < 0x800 {
      DecodeNext([0xC0 + c1], d0, 2);
    } else if c < 0x1_0000 {
      DecodeNext([0xE0 + c2], d1, 3);
      DecodeNext([0xE0 + c2] + [d1], d0, 3);
      assert EncodePoint(c) == [0xE0 + c2] + [d1] + [d0];
    } else {
      DecodeNext([0xF0 + c3], d2, 4);
      DecodeNext([0xF0 + c3] + [d2], d1, 4);
      DecodeNext([0xF0 + c3] + [d2] + [d1], d0, 4);
      assert EncodePoint(c) == [0xF0 + c3] + [d2] + [d1] + [d0];
    }
  }

  function Encode(s: Text): seq<nat> {
    if s == [] then [] else Encode(s[..|s| - 1]) + EncodePoint(s[|s| - 1])
  }

  /** The length the programs limit is that of the text's UTF-8 bytes. */
  lemma {:induction false} Utf8LengthCountsBytes(s: Text)
    ensures Utf8Length(s) == |Encode(s)|
  {
    if s != [] {
      Utf8LengthCountsBytes(s[..|s| - 1]);
    }
  }

  /** Exactly the integers from zero to 2^53 - 1 are revisions. */
  lemma SafeRevisionIff(value: Argument, n: nat)
    ensures SafeRevision(value) == Some(n) <==> value == Number(n as real) && n <= 0x1F_FFFF_FFFF_FFFF
  {
    if value.Number? && value.value == n as real {
      assert value.value.Floor == n;
    }
  }

  /**
   A set request is accepted, by either program, exactly if its name has a key, its content is a text of at most 256 KiB
   and its revision is a safe integer; and what is accepted are these three.
   */
  lemma AcceptedIff(program: Program, nfc: Text -> Text, input: SetInput, request: SetRequest)
    ensures ValidateSet(program, nfc, input) == Ok(request) <==>
            && NormalizeGroup(nfc, input.group) == Ok(request.key)
            && input.content == String(request.content) && Utf8Length(request.content) <= 256 * 1024
            && input.expectedRevision == Number(request.expected as real) && request.expected <= 0x1F_FFFF_FFFF_FFFF
  {
    SafeRevisionIff(input.expectedRevision, request.expected);
    if SafeRevision(input.expectedRevision).Some? {
      SafeRevisionIff(input.expectedRevision, SafeRevision(input.expectedRevision).value);
    }
  }

  /** The two programs accept the same requests, and read the same key, content and revision from them. */
  lemma ProgramsAgree(nfc: Text -> Text, input: SetInput)
    ensures ValidateSet(SharedStateServer, nfc, input).Ok? <==> ValidateSet(HermesBridge, nfc, input).Ok?
    ensures ValidateSet(SharedStateServer, nfc, input).Ok? ==>
              ValidateSet(SharedStateServer, nfc, input) == ValidateSet(HermesBridge, nfc, input)
  {
  }

  /** They give the same answer, reason included, exactly when the name is refused or the content is accepted. */
  lemma ProgramsAnswerAlikeIff(nfc: Text -> Text, input: SetInput)
    ensures ValidateSet(SharedStateServer, nfc, input) == ValidateSet(HermesBridge, nfc, input) <==>
            || NormalizeGroup(nfc, input.group).Err?
            || (input.content.String? && Utf8Length(input.content.text) <= MAX_CONTENT_BYTES)
  {
  }

  datatype Blame = Group | Content | Revision

  /** The argument a reason is about. */
  function Blamed(reason: Rejection): Blame {
    match reason
    case BadGroup => Group
    case BadRevision => Revision
    case _ => Content
  }

  /**
   They even blame different arguments exactly when the name is accepted, the content is a text that is too long and
   the revision is bad: the order of the revision and length checks is not the same.
   */
  lemma ProgramsBlameAlikeIff(nfc: Text -> Text, input: SetInput)
    requires ValidateSet(SharedStateServer, nfc, input).Err?
    ensures Blamed(ValidateSet(SharedStateServer, nfc, input).error) == Blamed(ValidateSet(HermesBridge, nfc, input).error) <==>
            !(&& NormalizeGroup(nfc, input.group).Ok?
              && input.content.String? && Utf8Length(input.content.text) > MAX_CONTENT_BYTES
              && SafeRevision(input.expectedRevision).None?)
  {
    ProgramsAgree(nfc, input);
  }
}

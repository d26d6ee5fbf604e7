/**
 * The `multipart/form-data` body of an upload (section 4 of RFC 7578), as the
 * private encoder of the connection manager lays it out byte by byte, and the
 * boundary it is given.
 */
module Multipart {
  import opened Wrappers
  import opened Utf8
  import opened Numerals

  /**
   * What the file system reports for the `Path` of a file field: its last
   * path component, the MIME type `Files.probeContentType` finds (None when
   * it returns null) and the bytes `Files.readAllBytes` reads (None when
   * probing or reading throws an IOException).
   */
  datatype LocalFile = LocalFile(fileName: string, mimeType: Option<string>, contents: Option<seq<byte>>)

  /** A value of the parameter map: a `Path`, or any other object, sent as its text. */
  datatype FieldValue = StringValue(text: string) | File(file: LocalFile)

  datatype Field = Field(key: string, value: FieldValue)

  /** A `LinkedHashMap`: its entries in insertion order. */
  type Form = seq<Field>

  predicate HasKey(m: Form, key: string) {
    exists i :: 0 <= i < |m| && m[i].key == key
  }

  predicate DistinctKeys(m: Form) {
    forall i, j :: 0 <= i < j < |m| ==> m[i].key != m[j].key
  }

  /** `LinkedHashMap.put`: a new key goes last; an existing key keeps its place and takes the new value. */
  function Put(m: Form, key: string, value: FieldValue): (r: Form)
    requires DistinctKeys(m)
    ensures DistinctKeys(r) && HasKey(r, key)
    ensures |r| == if HasKey(m, key) then |m| else |m| + 1
    ensures forall i :: 0 <= i < |m| ==> r[i] == if m[i].key == key then Field(key, value) else m[i]
    ensures !HasKey(m, key) ==> r[|m|] == Field(key, value)
  {
    if HasKey(m, key) then
      var r := seq(|m|, i requires 0 <= i < |m| => if m[i].key == key then Field(key, value) else m[i]);
      assert forall i :: 0 <= i < |m| ==> r[i].key == m[i].key;
      r
    else
      var r := m + [Field(key, value)];
      assert r[|m|].key == key;
      r
  }

  const CRLF: string := "\r\n"

  function DashBoundary(boundary: string): string {
    "--" + boundary
  }

  /** What the encoder writes before the quoted name of every entry. */
  function Separator(boundary: string): string {
    DashBoundary(boundary) + CRLF + Disposition
  }

  const Disposition: string := "Content-Disposition: form-data; name="
  const Quote: string := "\""

  function Terminator(boundary: string): string {
    "--" + boundary + "--"
  }

  /** A MIME type in string concatenation: a null from `probeContentType` becomes "null". */
  function MimeText(mimeType: Option<string>): string {
    if mimeType.Some? then mimeType.value else "null"
  }

  predicate Readable(f: Field) {
    f.value.File? ==> f.value.file.contents.Some?
  }

  predicate AllReadable(m: Form) {
    forall i :: 0 <= i < |m| ==> Readable(m[i])
  }

  /** The header the encoder writes after the separator of a file entry. */
  function FileHeader(key: string, file: LocalFile): string {
    Quote + key + Quote + "; filename=" + Quote + file.fileName + Quote + CRLF
      + "Content-Type: " + MimeText(file.mimeType) + CRLF + CRLF
  }

  /** What the encoder writes after the separator of a text entry. */
  function TextPart(key: string, text: string): string {
    Quote + key + Quote + CRLF + CRLF + text + CRLF
  }

  /** The byte arrays the encoder adds for one entry, joined. */
  function PartBytes(f: Field, boundary: string): seq<byte>
    requires Readable(f)
  {
    match f.value
    case StringValue(v) => Encode(Separator(boundary)) + Encode(TextPart(f.key, v))
    case File(file) =>
      Encode(Separator(boundary)) + Encode(FileHeader(f.key, file)) + file.contents.value + Encode(CRLF)
  }

  /** The parts of all entries, in iteration order. */
  function Parts(m: Form, boundary: string): seq<byte>
    requires AllReadable(m)
    decreases |m|
  {
    if m == [] then [] else Parts(m[..|m| - 1], boundary) + PartBytes(m[|m| - 1], boundary)
  }

  /** The body the encoder publishes, or the IOException of the first file it cannot read. */
  function Body(m: Form, boundary: string): (r: Result<seq<byte>>)
    ensures r.Ok? <==> AllReadable(m)
    ensures r.Err? ==> r.error == IoError
  {
    if AllReadable(m) then Ok(Parts(m, boundary) + Encode(Terminator(boundary))) else Err(IoError)
  }

  lemma AppendAssoc(s: seq<byte>, a: seq<byte>, b: seq<byte>, c: seq<byte>, d: seq<byte>)
    ensures s + a + b + c + d == s + (a + b + c + d)
    ensures s + a + b == s + (a + b)
  {
  }

  /**
   * One turn of the loop of `ofMimeMultipartData`: the byte arrays added for
   * one entry, or None when its file cannot be probed or read.
   */
  method AddEntry(body: seq<byte>, separator: seq<byte>, entry: Field, boundary: string) returns (r: Option<seq<byte>>)
    requires separator == Encode(Separator(boundary))
    ensures r.Some? <==> Readable(entry)
    ensures r.Some? ==> r.value == body + PartBytes(entry, boundary)
  {
    var out := body + separator;
    match entry.value {
      case File(file) =>
        if file.contents.None? {
          return None;
        }
        out := out + Encode(FileHeader(entry.key, file));
        out := out + file.contents.value;
        out := out + Encode(CRLF);
        AppendAssoc(body, separator, Encode(FileHeader(entry.key, file)), file.contents.value, Encode(CRLF));
      case StringValue(v) =>
        out := out + Encode(TextPart(entry.key, v));
        AppendAssoc(body, separator, Encode(TextPart(entry.key, v)), [], []);
    }
    r := Some(out);
  }

  lemma PartsStep(m: Form, i: nat, boundary: string)
    requires i < |m| && AllReadable(m[..i]) && Readable(m[i])
    ensures AllReadable(m[..i + 1])
    ensures Parts(m[..i + 1], boundary) == Parts(m[..i], boundary) + PartBytes(m[i], boundary)
  {
    assert m[..i + 1] == m[..i] + [m[i]];
    assert m[..i + 1][..i] == m[..i];
  }

  /**
   * `ofMimeMultipartData`: one pass over the entries in iteration order,
   * then the close delimiter. The publisher sends the byte arrays one after
   * the other, so they are kept here joined, as the bytes it sends.
   */
  method OfMimeMultipartData(data: Form, boundary: string) returns (r: Result<seq<byte>>)
    ensures r == Body(data, boundary)
  {
    var body: seq<byte> := [];
    var separator := Encode(Separator(boundary));
    var i := 0;
    while i < |data|
      invariant 0 <= i <= |data|
      invariant AllReadable(data[..i])
      invariant body == Parts(data[..i], boundary)
    {
      var next := AddEntry(body, separator, data[i], boundary);
      if next.None? {
        assert !AllReadable(data) by {
          assert !Readable(data[i]);
        }
        return Err(IoError);
      }
      PartsStep(data, i, boundary);
      body := next.value;
      i := i + 1;
    }
    assert data[..|data|] == data;
    body := body + Encode(Terminator(boundary));
    r := Ok(body);
  }

  // ---------------------------------------------------------------------
  // The same body, written from the grammar of section 5.1.1 of RFC 2046:
  //   multipart-body := dash-boundary CRLF body-part *encapsulation close-delimiter
  //   encapsulation  := delimiter CRLF body-part
  //   delimiter      := CRLF dash-boundary
  //   close-delimiter := delimiter "--"
  // with empty preamble, transport padding and epilogue, and each body part
  // made of the header fields of sections 4.2 and 4.4 of RFC 7578.
  // ---------------------------------------------------------------------

  /** One body part: its MIME header fields, an empty line, then the content. */
  function BodyPart(f: Field): seq<byte>
    requires Readable(f)
  {
    match f.value
    case StringValue(v) =>
      Encode("Content-Disposition: form-data; name=" + Quote + f.key + Quote + CRLF + CRLF + v)
    case File(file) =>
      Encode("Content-Disposition: form-data; name=" + Quote + f.key + Quote + "; filename=" + Quote + file.fileName + Quote + CRLF
             + "Content-Type: " + MimeText(file.mimeType) + CRLF + CRLF)
      + file.contents.value
  }

  function Delimiter(boundary: string): seq<byte> {
    Encode(CRLF + DashBoundary(boundary))
  }

  function Encapsulations(m: Form, boundary: string): seq<byte>
    requires AllReadable(m)
    decreases |m|
  {
    if m == [] then []
    else Encapsulations(m[..|m| - 1], boundary) + Delimiter(boundary) + Encode(CRLF) + BodyPart(m[|m| - 1])
  }

  function MultipartBody(m: Form, boundary: string): seq<byte>
    requires |m| >= 1 && AllReadable(m)
  {
    Encode(DashBoundary(boundary)) + Encode(CRLF) + BodyPart(m[0])
      + Encapsulations(m[1..], boundary)
      + Delimiter(boundary) + Encode("--")
  }

  lemma TextAssoc(d: seq<byte>, c: seq<byte>, cd: seq<byte>, w: seq<byte>)
    ensures d + c + cd + (w + c) == d + c + (cd + w) + c
  {
  }

  lemma FileAssoc(d: seq<byte>, c: seq<byte>, cd: seq<byte>, h: seq<byte>, x: seq<byte>)
    ensures d + c + cd + h + x + c == d + c + (cd + h + x) + c
  {
  }

  lemma EncodeTextRegroup(d: string, c: string, cd: string, w: string)
    ensures Encode(d + c + cd) + Encode(w + c) == Encode(d) + Encode(c) + Encode(cd + w) + Encode(c)
  {
    EncodeAppend(d + c, cd);
    EncodeAppend(d, c);
    EncodeAppend(w, c);
    EncodeAppend(cd, w);
    TextAssoc(Encode(d), Encode(c), Encode(cd), Encode(w));
  }

  lemma EncodeFileRegroup(d: string, c: string, cd: string, h: string, x: seq<byte>)
    ensures Encode(d + c + cd) + Encode(h) + x + Encode(c) == Encode(d) + Encode(c) + (Encode(cd + h) + x) + Encode(c)
  {
    EncodeAppend(d + c, cd);
    EncodeAppend(d, c);
    EncodeAppend(cd, h);
    FileAssoc(Encode(d), Encode(c), Encode(cd), Encode(h), x);
  }

  /** Each entry's bytes are a dash-boundary line, its body part and a line break. */
  lemma PartShape(f: Field, boundary: string)
    requires Readable(f)
    ensures PartBytes(f, boundary) == Encode(DashBoundary(boundary)) + Encode(CRLF) + BodyPart(f) + Encode(CRLF)
  {
    match f.value
    case StringValue(v) =>
      Join7(Disposition, Quote, f.key, Quote, CRLF, CRLF, v);
      EncodeTextRegroup(DashBoundary(boundary), CRLF, Disposition, Quote + f.key + Quote + CRLF + CRLF + v);
    case File(file) =>
      Join13(Disposition, Quote, f.key, Quote, "; filename=", Quote, file.fileName, Quote, CRLF,
             "Content-Type: ", MimeText(file.mimeType), CRLF, CRLF);
      EncodeFileRegroup(DashBoundary(boundary), CRLF, Disposition, FileHeader(f.key, file), file.contents.value);
  }

  lemma Join7(a: string, b: string, c: string, d: string, e: string, f: string, g: string)
    ensures a + b + c + d + e + f + g == a + (b + c + d + e + f + g)
  {
  }

  lemma Join13(a: string, b: string, c: string, d: string, e: string, f: string,
               g: string, h: string, i: string, j: string, k: string, l: string, n: string)
    ensures a + b + c + d + e + f + g + h + i + j + k + l + n == a + (b + c + d + e + f + g + h + i + j + k + l + n)
  {
  }

  lemma PartsRegroup(d: seq<byte>, c: seq<byte>, p0: seq<byte>, e: seq<byte>, p: seq<byte>)
    ensures d + c + p0 + e + c + (d + c + p + c) == d + c + p0 + (e + (c + d) + c + p) + c
  {
  }

  /** The entries' bytes, regrouped: the first body part, the encapsulations of the others, a final line break. */
  lemma {:induction false} PartsShape(m: Form, boundary: string)
    requires |m| >= 1 && AllReadable(m)
    ensures Parts(m, boundary)
         == Encode(DashBoundary(boundary)) + Encode(CRLF) + BodyPart(m[0]) + Encapsulations(m[1..], boundary) + Encode(CRLF)
  {
    PartShape(m[|m| - 1], boundary);
    if |m| == 1 {
      assert m[..0] == [] && m[1..] == [];
    } else {
      PartsShape(m[..|m| - 1], boundary);
      assert m[..|m| - 1][0] == m[0];
      DelimiterSplit(boundary);
      EncapsulationsSnoc(m, boundary);
      PartsRegroup(Encode(DashBoundary(boundary)), Encode(CRLF), BodyPart(m[0]),
                   Encapsulations(m[..|m| - 1][1..], boundary), BodyPart(m[|m| - 1]));
    }
  }

  lemma DelimiterSplit(boundary: string)
    ensures Delimiter(boundary) == Encode(CRLF) + Encode(DashBoundary(boundary))
  {
    EncodeAppend(CRLF, DashBoundary(boundary));
  }

  lemma EncapsulationsSnoc(m: Form, boundary: string)
    requires |m| >= 2 && AllReadable(m)
    ensures Encapsulations(m[1..], boundary)
         == Encapsulations(m[..|m| - 1][1..], boundary) + Delimiter(boundary) + Encode(CRLF) + BodyPart(m[|m| - 1])
  {
    var tail := m[1..];
    assert tail[..|tail| - 1] == m[..|m| - 1][1..];
    assert tail[|tail| - 1] == m[|m| - 1];
  }

  lemma BodyRegroup(d: seq<byte>, c: seq<byte>, p0: seq<byte>, e: seq<byte>, dd: seq<byte>)
    ensures d + c + p0 + e + c + (d + dd) == d + c + p0 + e + (c + d) + dd
  {
  }

  /** For a non-empty map the encoder's body is exactly a multipart body of RFC 2046, one body part per entry in order. */
  lemma ConformsToRfc2046(m: Form, boundary: string)
    requires |m| >= 1 && AllReadable(m)
    ensures Body(m, boundary) == Ok(MultipartBody(m, boundary))
  {
    PartsShape(m, boundary);
    TerminatorSplit(boundary);
    DelimiterSplit(boundary);
    BodyRegroup(Encode(DashBoundary(boundary)), Encode(CRLF), BodyPart(m[0]), Encapsulations(m[1..], boundary), Encode("--"));
  }

  lemma TerminatorSplit(boundary: string)
    ensures Encode(Terminator(boundary)) == Encode(DashBoundary(boundary)) + Encode("--")
  {
    EncodeAppend(DashBoundary(boundary), "--");
  }

  /**
   * A non-empty map's body starts with the dash-boundary "--" + boundary; an
   * empty map's body is the close delimiter alone; every body ends with it.
   */
  lemma BodyDelimited(m: Form, boundary: string)
    requires Body(m, boundary).Ok?
    ensures |m| >= 1 ==> Encode(DashBoundary(boundary)) <= Body(m, boundary).value
    ensures m == [] ==> Body(m, boundary).value == Encode(Terminator(boundary))
    ensures var body, t := Body(m, boundary).value, Encode(Terminator(boundary));
      |t| <= |body| && body[|body| - |t|..] == t
  {
    if |m| >= 1 {
      ConformsToRfc2046(m, boundary);
    } else {
      assert Parts(m, boundary) == [];
    }
  }

  /** The parts of the first `i` entries are a prefix of the parts of all entries. */
  lemma {:induction false} PartsPrefix(m: Form, boundary: string, i: nat)
    requires AllReadable(m) && i <= |m|
    ensures Parts(m[..i], boundary) <= Parts(m, boundary)
    decreases |m| - i
  {
    if i < |m| {
      PartsPrefix(m, boundary, i + 1);
      assert m[..i + 1][..i] == m[..i];
    } else {
      assert m[..i] == m;
    }
  }

  /** Every entry's bytes begin with the separator. */
  lemma PartStartsWithSeparator(f: Field, boundary: string)
    requires Readable(f)
    ensures var sep := Encode(Separator(boundary));
      |sep| >= 1 && sep <= PartBytes(f, boundary)
  {
    var sep := Encode(Separator(boundary));
    assert Separator(boundary)[0] == '-';
    match f.value
    case StringValue(v) =>
    case File(file) =>
      AppendAssoc([], sep, Encode(FileHeader(f.key, file)), file.contents.value, Encode(CRLF));
  }

  lemma SliceAfter(p: seq<byte>, part: seq<byte>, whole: seq<byte>, sep: seq<byte>)
    requires p + part <= whole && sep <= part
    ensures |p| <= |whole| && sep <= whole[|p|..]
  {
    assert whole[|p|..][..|part|] == part;
  }

  /**
   * Entry `i` begins, with the separator, right after the parts of the
   * entries before it: one separator per entry, at strictly increasing
   * offsets, in the map's iteration order.
   */
  lemma SeparatorAt(m: Form, boundary: string, i: nat)
    requires AllReadable(m) && i < |m|
    ensures |Parts(m[..i], boundary)| < |Parts(m[..i + 1], boundary)| <= |Parts(m, boundary)|
    ensures Encode(Separator(boundary)) <= Parts(m, boundary)[|Parts(m[..i], boundary)|..]
  {
    PartsStep(m, i, boundary);
    PartsPrefix(m, boundary, i + 1);
    PartStartsWithSeparator(m[i], boundary);
    SliceAfter(Parts(m[..i], boundary), PartBytes(m[i], boundary), Parts(m, boundary), Encode(Separator(boundary)));
  }

  // ---------------------------------------------------------------------
  // The boundary.
  // ---------------------------------------------------------------------

  /** `new BigInteger(256, random).toString()`: the decimal text of a random number below 2^256. */
  function RandomBoundary(seed: nat): string
    requires seed < TwoTo256
  {
    Digits(seed)
  }

  /** The characters section 5.1.1 of RFC 2046 admits in a boundary (bchars). */
  predicate IsBoundaryChar(c: char) {
    || 'a' <= c <= 'z' || 'A' <= c <= 'Z' || '0' <= c <= '9'
    || c in "'()+_,-./:=? "
  }

  /** A boundary of section 5.1.1 of RFC 2046: 1 to 70 bchars, not ending in a space. */
  predicate IsRfc2046Boundary(s: string) {
    1 <= |s| <= 70 && (forall i :: 0 <= i < |s| ==> IsBoundaryChar(s[i])) && s[|s| - 1] != ' '
  }

  /** The decimal text of any number is made of bchars; only its length can break the rule. */
  lemma DigitsBoundaryIffShort(n: nat)
    ensures IsRfc2046Boundary(Digits(n)) <==> n < Pow10(70)
  {
    DigitsLength(n, 70);
    DigitsAreDigits(n);
    var s := Digits(n);
    assert forall i :: 0 <= i < |s| ==> IsBoundaryChar(s[i]) && s[i] != ' ' by {
      forall i | 0 <= i < |s| ensures IsBoundaryChar(s[i]) && s[i] != ' ' {
        assert DigitValue(s[i]).Some?;
      }
    }
  }

  /** The generated boundary follows RFC 2046 exactly when the random number is below 10^70. */
  lemma RandomBoundaryIffShort(seed: nat)
    requires seed < TwoTo256
    ensures IsRfc2046Boundary(RandomBoundary(seed)) <==> seed < Pow10(70)
  {
    DigitsBoundaryIffShort(seed);
  }

  /** 10^70 is one of the numbers the generator can draw; its text has 71 characters, one over the limit. */
  lemma RandomBoundaryTooLong()
    ensures var seed := 10000000000000000000000000000000000000000000000000000000000000000000000;
      seed < TwoTo256 && |RandomBoundary(seed)| == 71 && !IsRfc2046Boundary(RandomBoundary(seed))
  {
    var seed := 10000000000000000000000000000000000000000000000000000000000000000000000;
    Pow10To70();
    DigitsBoundaryIffShort(seed);
    DigitsLength(seed, 70);
    DigitsLength(seed, 71);
  }

  /** The same generator with 232 random bits: at most 70 decimal digits, since 2^232 < 10^70. */
  function ShortRandomBoundary(seed: nat): string
    requires seed < TwoTo232
  {
    Digits(seed)
  }

  lemma ShortRandomBoundaryConforms(seed: nat)
    requires seed < TwoTo232
    ensures IsRfc2046Boundary(ShortRandomBoundary(seed))
  {
    Pow10To70();
    DigitsBoundaryIffShort(seed);
  }
}

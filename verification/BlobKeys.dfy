/** Storage keys: how a digest is printed as a key and how a key is read back as a path. */
module BlobKeys {
  import opened Common

  type Path = seq<string>

  datatype KeyError = InvalidKey | Traversal | EmptyWorkspace | InvalidWorkspace

  predicate IsLowerHex(ch: char) { '0' <= ch <= '9' || 'a' <= ch <= 'f' }

  predicate IsHash(s: string) { |s| == 64 && forall i :: 0 <= i < |s| ==> IsLowerHex(s[i]) }

  function PrintKey(hash: string): string
    requires |hash| >= 4
  {
    "sha256" + "/" + hash[0..2] + "/" + hash[2..4] + "/" + hash
  }

  // ---- Digests in print ----

  type Byte = n: nat | n < 256

  const DIGITS := "0123456789abcdef"

  /** Two lower-case digits a byte, high half first. */
  function Digits(b: Byte): (s: string)
    ensures |s| == 2
  {
    [DIGITS[b / 16], DIGITS[b % 16]]
  }

  function Hex(bytes: seq<Byte>): (s: string)
    ensures |s| == 2 * |bytes|
  {
    if bytes == [] then "" else Digits(bytes[0]) + Hex(bytes[1..])
  }

  function ByteOf(high: char, low: char): Byte
    requires IsLowerHex(high) && IsLowerHex(low)
  {
    16 * DigitValue(high) + DigitValue(low)
  }

  function DigitValue(ch: char): (n: nat)
    requires IsLowerHex(ch)
    ensures n < 16
  {
    if ch <= '9' then ch as nat - '0' as nat else ch as nat - 'a' as nat + 10
  }

  lemma DigitsArePrinted(ch: char)
    ensures IsLowerHex(ch) <==> ch in DIGITS
    ensures IsLowerHex(ch) ==> DIGITS[DigitValue(ch)] == ch
  {
    assert DIGITS == ['0', '1', '2', '3', '4', '5', '6', '7', '8', '9', 'a', 'b', 'c', 'd', 'e', 'f'];
  }

  lemma {:induction false} PrintIsLowerHex(bytes: seq<Byte>, i: nat)
    requires i < |Hex(bytes)|
    ensures IsLowerHex(Hex(bytes)[i])
  {
    if i < 2 {
      assert Hex(bytes)[i] == Digits(bytes[0])[i];
      DigitsArePrinted(Hex(bytes)[i]);
    } else {
      PrintIsLowerHex(bytes[1..], i - 2);
    }
  }

  lemma BytePrintsBack(high: char, low: char)
    requires IsLowerHex(high) && IsLowerHex(low)
    ensures Digits(ByteOf(high, low)) == [high, low]
  {
    hide IsLowerHex, DigitValue;
    Halves(DigitValue(high), DigitValue(low));
    DigitsArePrinted(high);
    DigitsArePrinted(low);
  }

  lemma Halves(high: nat, low: nat)
    requires high < 16 && low < 16
    ensures (16 * high + low) / 16 == high && (16 * high + low) % 16 == low
  {
  }

  lemma {:induction false} ReadBack(s: string, n: nat) returns (bytes: seq<Byte>)
    requires |s| == 2 * n && forall i :: 0 <= i < |s| ==> IsLowerHex(s[i])
    ensures |bytes| == n && Hex(bytes) == s
    decreases n
  {
    hide IsLowerHex, Digits, ByteOf;
    if n == 0 {
      bytes := [];
    } else {
      var rest := ReadBack(s[2..], n - 1);
      bytes := [ByteOf(s[0], s[1])] + rest;
      BytePrintsBack(s[0], s[1]);
      assert bytes[1..] == rest;
      assert s == [s[0], s[1]] + s[2..];
    }
  }

  /** The accepted hashes are exactly the printed 32-byte digests. */
  lemma HashIsAPrintedDigest(s: string)
    ensures IsHash(s) <==> exists bytes: seq<Byte> :: |bytes| == 32 && Hex(bytes) == s
  {
    if IsHash(s) {
      var read := ReadBack(s, 32);
    }
    if bytes: seq<Byte> :| |bytes| == 32 && Hex(bytes) == s {
      forall i | 0 <= i < |s|
        ensures IsLowerHex(s[i])
      {
        PrintIsLowerHex(bytes, i);
      }
    }
  }

  // ---- Unix path components ----

  datatype Component = RootDir | CurDir | ParentDir | Normal(name: string)

  function SlashAt(s: string): (i: nat)
    ensures i <= |s|
    ensures forall j :: 0 <= j < i ==> s[j] != '/'
    ensures i < |s| ==> s[i] == '/'
  {
    if s == "" || s[0] == '/' then 0 else 1 + SlashAt(s[1..])
  }

  function Split(s: string): (r: seq<string>)
    ensures r != []
    ensures forall i :: 0 <= i < |r| ==> '/' !in r[i]
    decreases |s|
  {
    var i := SlashAt(s);
    if i == |s| then assert s[..i] == s; [s] else [s[..i]] + Split(s[i + 1..])
  }

  /** Empty and non-leading `.` segments vanish. */
  function ComponentsFrom(segments: seq<string>, leading: bool): seq<Component> {
    if segments == [] then []
    else
      var rest := ComponentsFrom(segments[1..], false);
      match segments[0]
      case "" => rest
      case "." => if leading then [CurDir] + rest else rest
      case ".." => [ParentDir] + rest
      case name => [Normal(name)] + rest
  }

  function Components(path: string): seq<Component> {
    (if path != "" && path[0] == '/' then [RootDir] else []) + ComponentsFrom(Split(path), true)
  }

  predicate IsAbsolute(path: string) { path != "" && path[0] == '/' }

  predicate CleanName(name: string) { name != "" && '\\' !in name && '\0' !in name }

  // ---- Validation ----

  /** The names of the components, or the error of the first one that is not a clean name. */
  function NamesOf(components: seq<Component>): Result<Path, KeyError> {
    if components == [] then Ok([])
    else
      match components[0]
      case Normal(name) =>
        if !CleanName(name) then Err(InvalidKey)
        else
          var rest := NamesOf(components[1..]);
          if rest.Ok? then Ok([name] + rest.value) else rest
      case ParentDir => Err(Traversal)
      case _ => Err(InvalidKey)
  }

  function Prefixed(parts: Path, r: Result<Path, KeyError>): Result<Path, KeyError> {
    if r.Ok? then Ok(parts + r.value) else r
  }

  predicate IsKeyPath(parts: Path) {
    && |parts| == 4
    && parts[0] == "sha256"
    && |parts[1]| == 2
    && |parts[2]| == 2
    && IsHash(parts[3])
    && parts[1] == parts[3][0..2]
    && parts[2] == parts[3][2..4]
  }

  function ValidateKey(key: string): Result<Path, KeyError> {
    if key == "" || IsAbsolute(key) then Err(InvalidKey)
    else
      var names := NamesOf(Components(key));
      if names.Err? then names
      else if IsKeyPath(names.value) then Ok(names.value)
      else Err(InvalidKey)
  }

  method ValidateStorageKey(key: string) returns (r: Result<Path, KeyError>)
    ensures r == ValidateKey(key)
  {
    if key == "" || IsAbsolute(key) {
      return Err(InvalidKey);
    }
    var components := Components(key);
    var parts: Path := [];
    var i := 0;
    assert components[0..] == components;
    assert NamesOf(components).Ok? ==> [] + NamesOf(components).value == NamesOf(components).value;
    while i < |components|
      invariant i <= |components|
      invariant NamesOf(components) == Prefixed(parts, NamesOf(components[i..]))
    {
      assert components[i..][1..] == components[i + 1..];
      ghost var rest := NamesOf(components[i + 1..]);
      match components[i] {
        case Normal(name) =>
          if name == "" || '\\' in name || '\0' in name {
            return Err(InvalidKey);
          }
          assert rest.Ok? ==> parts + ([name] + rest.value) == (parts + [name]) + rest.value;
          parts := parts + [name];
        case ParentDir =>
          return Err(Traversal);
        case _ =>
          return Err(InvalidKey);
      }
      i := i + 1;
    }
    assert parts + [] == parts;
    if !IsKeyPath(parts) {
      return Err(InvalidKey);
    }
    r := Ok(parts);
  }

  function PathOfHash(hash: string): Path
    requires IsHash(hash)
  {
    ["sha256", hash[0..2], hash[2..4], hash]
  }

  function Join(parts: Path): string {
    if parts == [] then "" else if |parts| == 1 then parts[0] else parts[0] + "/" + Join(parts[1..])
  }

  // ---- Properties ----

  lemma SplitPlain(s: string)
    requires '/' !in s
    ensures Split(s) == [s]
  {
    assert forall j :: 0 <= j < |s| ==> s[j] != '/';
  }

  lemma SplitFirst(x: string, y: string)
    requires '/' !in x
    ensures Split(x + "/" + y) == [x] + Split(y)
  {
    var s := x + "/" + y;
    assert forall j :: 0 <= j < |x| ==> s[j] == x[j] && s[j] != '/';
    assert s[|x|] == '/';
    assert SlashAt(s) == |x|;
    assert s[..|x|] == x && s[|x| + 1..] == y;
  }

  lemma HexHasNoSlash(hash: string, from: nat, to: nat)
    requires IsHash(hash) && from <= to <= |hash|
    ensures '/' !in hash[from..to] && '\\' !in hash[from..to] && '\0' !in hash[from..to] && '.' !in hash[from..to]
  {
    forall i | 0 <= i < to - from
      ensures IsLowerHex(hash[from..to][i])
    {
      assert hash[from..to][i] == hash[from + i];
    }
  }

  lemma PlainComponent(name: string, rest: seq<string>, leading: bool)
    requires name != "" && '.' !in name
    ensures ComponentsFrom([name] + rest, leading) == [Normal(name)] + ComponentsFrom(rest, false)
  {
    assert ([name] + rest)[1..] == rest;
    assert name != "." && name != ".." by {
      assert "."[0] == '.' && ".."[0] == '.';
    }
  }

  lemma PrintedComponents(hash: string)
    requires IsHash(hash)
    ensures Components(PrintKey(hash)) == [Normal("sha256"), Normal(hash[0..2]), Normal(hash[2..4]), Normal(hash)]
  {
    hide Split, ComponentsFrom;
    HexHasNoSlash(hash, 0, 2);
    HexHasNoSlash(hash, 2, 4);
    HexHasNoSlash(hash, 0, 64);
    assert hash[0..64] == hash;
    var a, b := hash[0..2], hash[2..4];
    SplitPlain(hash);
    SplitFirst(b, hash);
    SplitFirst(a, b + "/" + hash);
    SplitFirst("sha256", a + "/" + (b + "/" + hash));
    assert PrintKey(hash) == "sha256" + "/" + (a + "/" + (b + "/" + hash));
    assert PrintKey(hash)[0] == 's';
    assert Split(PrintKey(hash)) == ["sha256"] + ([a] + ([b] + [hash]));
    PlainComponent("sha256", [a] + ([b] + [hash]), true);
    PlainComponent(a, [b] + [hash], false);
    PlainComponent(b, [hash], false);
    assert [hash] == [hash] + [];
    PlainComponent(hash, [], false);
    NoComponents();
  }

  lemma NoComponents()
    ensures ComponentsFrom([], false) == []
  {
  }

  lemma NamesOfFour(a: string, b: string, c: string, d: string)
    requires CleanName(a) && CleanName(b) && CleanName(c) && CleanName(d)
    ensures NamesOf([Normal(a), Normal(b), Normal(c), Normal(d)]) == Ok([a, b, c, d])
  {
    assert [Normal(a), Normal(b), Normal(c), Normal(d)] == [Normal(a)] + [Normal(b), Normal(c), Normal(d)];
    assert [Normal(b), Normal(c), Normal(d)] == [Normal(b)] + [Normal(c), Normal(d)];
    assert [Normal(c), Normal(d)] == [Normal(c)] + [Normal(d)];
    assert [Normal(d)] == [Normal(d)] + [];
    NamesCons(d, []);
    assert NamesOf([Normal(d)]).value == [d];
    NamesCons(c, [Normal(d)]);
    assert NamesOf([Normal(c), Normal(d)]).value == [c, d];
    NamesCons(b, [Normal(c), Normal(d)]);
    assert NamesOf([Normal(b), Normal(c), Normal(d)]).value == [b, c, d];
    NamesCons(a, [Normal(b), Normal(c), Normal(d)]);
    assert [a] + [b, c, d] == [a, b, c, d];
  }

  lemma NamesCons(name: string, rest: seq<Component>)
    requires CleanName(name) && NamesOf(rest).Ok?
    ensures NamesOf([Normal(name)] + rest) == Ok([name] + NamesOf(rest).value)
  {
    assert ([Normal(name)] + rest)[1..] == rest;
  }

  /** Printing then validating gives back the digest's own path. */
  lemma PrintedKeyIsAccepted(hash: string)
    requires IsHash(hash)
    ensures ValidateKey(PrintKey(hash)) == Ok(PathOfHash(hash))
  {
    hide Components;
    PrintedComponents(hash);
    HexHasNoSlash(hash, 0, 2);
    HexHasNoSlash(hash, 2, 4);
    HexHasNoSlash(hash, 0, 64);
    assert hash[0..64] == hash;
    NamesOfFour("sha256", hash[0..2], hash[2..4], hash);
    assert PrintKey(hash)[0] == 's';
  }

  /** Every accepted key, however spelled, names the canonical path of one digest and reprints as its key. */
  lemma AcceptedKeyIsCanonical(key: string)
    requires ValidateKey(key).Ok?
    ensures var path := ValidateKey(key).value;
            && |path| == 4 && IsHash(path[3])
            && path == PathOfHash(path[3])
            && Join(path) == PrintKey(path[3])
  {
    hide Components, NamesOf;
    var path := ValidateKey(key).value;
    var hash := path[3];
    assert path[1..] == [hash[0..2], hash[2..4], hash];
    assert path[1..][1..] == [hash[2..4], hash];
    assert path[1..][1..][1..] == [hash];
    assert Join([hash]) == hash;
    assert Join([hash[2..4], hash]) == hash[2..4] + "/" + hash;
    assert Join([hash[0..2], hash[2..4], hash]) == hash[0..2] + "/" + (hash[2..4] + "/" + hash);
    assert "sha256" + "/" + (hash[0..2] + "/" + (hash[2..4] + "/" + hash)) == PrintKey(hash);
  }

  function KeyHash(key: string): string
    requires ValidateKey(key).Ok?
  {
    ValidateKey(key).value[3]
  }

  /** Two accepted keys share a path exactly when they name the same digest. */
  lemma OnePathPerHash(key1: string, key2: string)
    requires ValidateKey(key1).Ok? && ValidateKey(key2).Ok?
    ensures ValidateKey(key1) == ValidateKey(key2) <==> KeyHash(key1) == KeyHash(key2)
  {
    AcceptedKeyIsCanonical(key1);
    AcceptedKeyIsCanonical(key2);
  }

  /** A key is not its path's only spelling: doubled slashes are accepted too. */
  lemma DoubledSlashIsAnAlias(hash: string)
    requires IsHash(hash)
    ensures var alias := "sha256" + "/" + ("" + "/" + (hash[0..2] + "/" + (hash[2..4] + "/" + hash)));
            alias != PrintKey(hash) && ValidateKey(alias) == Ok(PathOfHash(hash))
  {
    hide Split, ComponentsFrom;
    var a, b := hash[0..2], hash[2..4];
    var tail := a + "/" + (b + "/" + hash);
    var alias := "sha256" + "/" + ("" + "/" + tail);
    PrintedComponents(hash);
    PrintedKeyIsAccepted(hash);
    SplitFirst("", tail);
    SplitFirst("sha256", "" + "/" + tail);
    HexHasNoSlash(hash, 0, 2);
    HexHasNoSlash(hash, 2, 4);
    HexHasNoSlash(hash, 0, 64);
    assert hash[0..64] == hash;
    SplitFirst("sha256", tail);
    assert PrintKey(hash) == "sha256" + "/" + tail;
    assert |alias| == |PrintKey(hash)| + 1;
    PlainComponent("sha256", Split(tail), true);
    PlainComponent("sha256", [""] + Split(tail), true);
    EmptySegment(Split(tail));
    assert alias[0] == 's' && PrintKey(hash)[0] == 's';
    assert Components(alias) == Components(PrintKey(hash));
  }

  lemma EmptySegment(rest: seq<string>)
    ensures ComponentsFrom([""] + rest, false) == ComponentsFrom(rest, false)
  {
    assert ([""] + rest)[1..] == rest;
  }

  // ---- Where files live ----

  predicate IsSegmentChar(ch: char) {
    '0' <= ch <= '9' || 'a' <= ch <= 'z' || 'A' <= ch <= 'Z' || ch == '_' || ch == '-'
  }

  function WorkspaceSegment(workspace: string): Result<string, KeyError> {
    if workspace == "" then Err(EmptyWorkspace)
    else if forall i :: 0 <= i < |workspace| ==> IsSegmentChar(workspace[i]) then Ok(workspace)
    else Err(InvalidWorkspace)
  }

  lemma {:induction false} NoSlash(s: string)
    requires '/' !in s
    ensures Split(s) == [s]
  {
    assert SlashAt(s) == |s|;
  }

  /** An accepted workspace is its own single path component, so it names one directory and no other. */
  lemma WorkspaceIsOneComponent(workspace: string)
    ensures WorkspaceSegment(workspace).Ok? ==>
              WorkspaceSegment(workspace).value == workspace && Components(workspace) == [Normal(workspace)]
    ensures WorkspaceSegment(workspace).Err? ==>
              if workspace == "" then WorkspaceSegment(workspace).error == EmptyWorkspace
              else WorkspaceSegment(workspace).error == InvalidWorkspace
                   && exists i :: 0 <= i < |workspace| && !IsSegmentChar(workspace[i])
  {
    if WorkspaceSegment(workspace).Ok? {
      assert '/' !in workspace;
      NoSlash(workspace);
      assert IsSegmentChar(workspace[0]);
      assert ComponentsFrom([workspace], true) == [Normal(workspace)] + ComponentsFrom([], false);
    }
  }

  function BlobRoot(segment: string): Path { ["artifacts", "workspaces", segment, "blobs"] }

  function BlobPath(workspace: string, key: string): Result<Path, KeyError> {
    var segment := WorkspaceSegment(workspace);
    if segment.Err? then Err(segment.error)
    else
      var relative := ValidateKey(key);
      if relative.Err? then relative
      else
        var path := BlobRoot(segment.value) + relative.value;
        if BlobRoot(segment.value) <= path then Ok(path) else Err(Traversal)
  }

  function TempPath(workspace: string, operation: string): Result<Path, KeyError> {
    var segment := WorkspaceSegment(workspace);
    if segment.Err? then Err(segment.error)
    else Ok(["artifacts", "workspaces", segment.value, "tmp", operation + ".part"])
  }

  /** Where a digest is stored, for every workspace that has a directory. */
  function HashPath(workspace: string, hash: string): Path
    requires IsHash(hash)
  {
    BlobRoot(workspace) + PathOfHash(hash)
  }

  /** Keys of one digest land on its path; digests and workspaces never share a path, nor with staging files. */
  lemma BlobPathsAreDistinct(workspace: string, key: string, hash: string, operation: string)
    requires IsHash(hash)
    ensures BlobPath(workspace, PrintKey(hash)) ==
            if WorkspaceSegment(workspace).Ok? then Ok(HashPath(workspace, hash)) else Err(WorkspaceSegment(workspace).error)
    ensures BlobPath(workspace, key).Ok? && BlobPath(workspace, key).value == HashPath(workspace, hash) ==>
              ValidateKey(key) == Ok(PathOfHash(hash))
    ensures TempPath(workspace, operation).Ok? ==> TempPath(workspace, operation).value != HashPath(workspace, hash)
  {
    hide ValidateKey;
    PrintedKeyIsAccepted(hash);
    var path := HashPath(workspace, hash);
    assert path[4..] == PathOfHash(hash);
    if BlobPath(workspace, key).Ok? {
      var other := BlobPath(workspace, key).value;
      assert other[4..] == ValidateKey(key).value;
    }
  }

  lemma HashPathInjective(w1: string, h1: string, w2: string, h2: string)
    requires IsHash(h1) && IsHash(h2)
    ensures HashPath(w1, h1) == HashPath(w2, h2) <==> w1 == w2 && h1 == h2
  {
    var p1, p2 := HashPath(w1, h1), HashPath(w2, h2);
    assert p1[2] == w1 && p2[2] == w2 && p1[7] == h1 && p2[7] == h2;
  }
}

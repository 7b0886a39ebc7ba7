/**
 * `com.kraken.loader.JarResourceLoader`: downloads a plugin JAR from a
 * presigned URL and keeps, in memory, the bytes of every class file under a
 * package prefix, keyed by binary class name.
 *
 * The archive format itself is decoded by `java.util.jar.JarInputStream`;
 * here the decoded archive is a sequence of entries, each carrying the chunks
 * that successive `read` calls return, and a flag saying whether an
 * `IOException` ends the stream after those entries. A read that fails inside
 * an entry is the same as that entry missing and the stream failing there.
 */
module JarLoading {
  import opened JavaStrings
  import opened ClassLoading

  const CLASS_SUFFIX: string := ".class"

  /** One archive entry: its path and the chunks read from it up to end of entry. */
  datatype JarEntry = JarEntry(name: string, chunks: seq<Bytes>)

  /** The decoded archive; `failed` means an `IOException` ends it after `entries`. */
  datatype JarStream = JarStream(entries: seq<JarEntry>, failed: bool)

  /**
   * Building the URL and opening the connection either works or throws
   * `IOException`. `openConnection` does not contact the server: a failed
   * download throws at `getInputStream`, inside the reading block, and is
   * `Opened(JarStream([], true))`, an empty loader rather than none.
   */
  datatype Connection = Opened(stream: JarStream) | OpenFailed

  /** The chunks laid end to end. */
  function Concat(chunks: seq<Bytes>): Bytes {
    if chunks == [] then [] else Concat(chunks[..|chunks| - 1]) + chunks[|chunks| - 1]
  }

  lemma {:induction false} ConcatAppend(a: seq<Bytes>, b: seq<Bytes>)
    ensures Concat(a + b) == Concat(a) + Concat(b)
  {
    if b != [] {
      assert (a + b)[..|a + b| - 1] == a + b[..|b| - 1];
      ConcatAppend(a, b[..|b| - 1]);
    } else {
      assert a + b == a;
    }
  }

  /** The payload length is the sum of the chunk lengths. */
  function TotalLength(chunks: seq<Bytes>): nat {
    if chunks == [] then 0 else |chunks[0]| + TotalLength(chunks[1..])
  }

  lemma {:induction false} ConcatLength(chunks: seq<Bytes>)
    ensures |Concat(chunks)| == TotalLength(chunks)
  {
    if chunks != [] {
      assert chunks == [chunks[0]] + chunks[1..];
      ConcatAppend([chunks[0]], chunks[1..]);
      assert Concat([chunks[0]]) == Concat([]) + chunks[0];
      ConcatLength(chunks[1..]);
    }
  }

  /**
   * `readEntryBytes`: appends every chunk to a buffer until `read` reports end
   * of stream, so the result is the whole entry payload.
   */
  method ReadEntryBytes(chunks: seq<Bytes>) returns (bytes: Bytes)
    ensures bytes == Concat(chunks)
  {
    var buffer: Bytes := [];
    var i := 0;
    while i < |chunks|
      invariant 0 <= i <= |chunks|
      invariant buffer == Concat(chunks[..i])
    {
      assert chunks[..i + 1][..i] == chunks[..i];
      buffer := buffer + chunks[i];
      i := i + 1;
    }
    assert chunks[..i] == chunks;
    bytes := buffer;
  }

  /** An entry is loaded when its path ends in ".class" and starts with the package path. */
  predicate IsClassEntry(name: string, packageName: string) {
    EndsWith(name, CLASS_SUFFIX) && StartsWith(name, packageName)
  }

  /** Path to binary name: drop the last six characters and turn every '/' into '.'. */
  function ClassName(name: string): (className: string)
    requires EndsWith(name, CLASS_SUFFIX)
    ensures |className| == |name| - 6
    ensures forall i :: 0 <= i < |className| ==> className[i] == (if name[i] == '/' then '.' else name[i])
    ensures forall i :: 0 <= i < |className| && name[i] != '/' ==> className[i] == name[i]
  {
    ReplaceChar(name[..|name| - 6], '/', '.')
  }

  /** The class map after the first `|entries|` entries: later entries overwrite earlier ones. */
  function ClassMap(packageName: string, entries: seq<JarEntry>): map<string, Bytes> {
    if entries == [] then map[]
    else
      var m := ClassMap(packageName, entries[..|entries| - 1]);
      var e := entries[|entries| - 1];
      if IsClassEntry(e.name, packageName) then m[ClassName(e.name) := Concat(e.chunks)] else m
  }

  /**
   * `loadJarFromSignedUrl`: no loader when the connection cannot be opened;
   * otherwise a loader over the classes read, also when reading stopped early
   * on an `IOException` (the entries before the failure are kept).
   */
  method LoadJarFromSignedUrl(packageName: string, connection: Connection)
    returns (loader: ByteArrayClassLoader?)
    ensures connection.OpenFailed? <==> loader == null
    ensures loader != null ==> fresh(loader) && loader.classData == ClassMap(packageName, connection.stream.entries)
  {
    if connection.OpenFailed? {
      return null;
    }
    var entries := connection.stream.entries;
    var classData: map<string, Bytes> := map[];
    var i := 0;
    while i < |entries|
      invariant 0 <= i <= |entries|
      invariant classData == ClassMap(packageName, entries[..i])
    {
      var entry := entries[i];
      assert entries[..i + 1][..i] == entries[..i];
      if IsClassEntry(entry.name, packageName) {
        var classBytes := ReadEntryBytes(entry.chunks);
        var className := ClassName(entry.name);
        classData := classData[className := classBytes];
      }
      i := i + 1;
    }
    assert entries[..i] == entries;
    // A failed stream only logs "Failed to read jar classes"; the loader is built anyway.
    loader := new ByteArrayClassLoader(classData);
  }

  // ------------------------------------------------------------ properties

  /** A name is a key exactly when some class entry converts to it. */
  lemma {:induction false} ClassMapKeys(packageName: string, entries: seq<JarEntry>, key: string)
    ensures key in ClassMap(packageName, entries) <==>
      exists i :: 0 <= i < |entries| && IsClassEntry(entries[i].name, packageName) && ClassName(entries[i].name) == key
  {
    if entries != [] {
      var init := entries[..|entries| - 1];
      ClassMapKeys(packageName, init, key);
      forall i | 0 <= i < |init| ensures init[i] == entries[i] { }
    }
  }

  /** The bytes stored under a name are those of the last class entry with that name. */
  lemma {:induction false} ClassMapLastWins(packageName: string, entries: seq<JarEntry>, i: nat)
    requires i < |entries| && IsClassEntry(entries[i].name, packageName)
    requires forall j :: i < j < |entries| && IsClassEntry(entries[j].name, packageName) ==>
      ClassName(entries[j].name) != ClassName(entries[i].name)
    ensures ClassName(entries[i].name) in ClassMap(packageName, entries)
    ensures ClassMap(packageName, entries)[ClassName(entries[i].name)] == Concat(entries[i].chunks)
  {
    if i < |entries| - 1 {
      var init := entries[..|entries| - 1];
      assert init[i] == entries[i];
      ClassMapLastWins(packageName, init, i);
    }
  }

  /** Two class entries converting to the same name: the later one's bytes stay. */
  lemma LaterEntryOverwrites(packageName: string, first: JarEntry, second: JarEntry)
    requires IsClassEntry(first.name, packageName) && IsClassEntry(second.name, packageName)
    requires ClassName(first.name) == ClassName(second.name)
    ensures ClassMap(packageName, [first, second]) == map[ClassName(second.name) := Concat(second.chunks)]
  {
    assert [first, second][..1] == [first];
    assert [first][..0] == [];
    assert ClassMap(packageName, [first]) == map[ClassName(first.name) := Concat(first.chunks)];
  }

  /**
   * With a package path free of '.', every stored name starts with that path
   * in dotted form: the ".class" suffix cannot overlap the prefix.
   */
  lemma KeysCarryPackage(packageName: string, entries: seq<JarEntry>, key: string)
    requires '.' !in packageName
    requires key in ClassMap(packageName, entries)
    ensures StartsWith(key, ReplaceChar(packageName, '/', '.'))
  {
    ClassMapKeys(packageName, entries, key);
    var i :| 0 <= i < |entries| && IsClassEntry(entries[i].name, packageName) && ClassName(entries[i].name) == key;
    var name := entries[i].name;
    assert name[|name| - 6] == '.';
    assert |packageName| <= |name| - 6;
    var dotted := ReplaceChar(packageName, '/', '.');
    forall j | 0 <= j < |dotted| ensures key[j] == dotted[j] {
      assert name[j] == packageName[j];
    }
  }

  /** The prefix test has no separator check, and inner classes ('$') pass it. */
  lemma PrefixIsPlainText()
    ensures IsClassEntry("com/krakenpluginsX/A.class", "com/krakenplugins")
    ensures IsClassEntry("com/krakenplugins/A$1.class", "com/krakenplugins")
    ensures ClassName("com/krakenplugins/A$1.class") == "com.krakenplugins.A$1"
  {
  }

  /** The bytes a loader finds for a class are the payload of its (last) entry. */
  lemma FindClassAfterLoad(loader: ByteArrayClassLoader, packageName: string, entries: seq<JarEntry>, i: nat)
    requires loader.classData == ClassMap(packageName, entries)
    requires i < |entries| && IsClassEntry(entries[i].name, packageName)
    requires forall j :: i < j < |entries| && IsClassEntry(entries[j].name, packageName) ==>
      ClassName(entries[j].name) != ClassName(entries[i].name)
    ensures loader.FindClass(ClassName(entries[i].name)).Defined?
    ensures loader.FindClass(ClassName(entries[i].name)).bytes == Concat(entries[i].chunks)
  {
    ClassMapLastWins(packageName, entries, i);
  }
}

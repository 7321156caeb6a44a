/**
 * The mod content loader's decisions: which file extensions each content kind
 * accepts, which audio decoder a URI selects, when an audio clip would be
 * streamed, which files of a mod end up loaded, and what `LoadItem` returns
 * when decoding fails. The host engine's file reading and decoding are
 * function-typed fields of `Engine`.
 */
module ModContentLoader {
  import opened Wrappers

  /** The content type parameter of the loader. */
  datatype ContentKind = Audio | Texture | Text | Other

  const AcceptableExtensionsAudio: seq<string> := [".wav", ".mp3", ".ogg", ".xm", ".it", ".mod", ".s3m"]
  const AcceptableExtensionsTexture: seq<string> := [".png", ".jpg", ".jpeg", ".psd"]
  const AcceptableExtensionsString: seq<string> := [".txt"]

  // ----- extensions -----

  /** ASCII lower-casing of one character. */
  function LowerChar(c: char): char {
    if 'A' <= c <= 'Z' then (c as int + 32) as char else c
  }

  function ToLower(s: string): string {
    seq(|s|, i requires 0 <= i < |s| => LowerChar(s[i]))
  }

  /** The extension table for a content kind; an unknown kind has none. */
  function ExtensionTable(kind: ContentKind): Option<seq<string>> {
    match kind
    case Audio => Some(AcceptableExtensionsAudio)
    case Texture => Some(AcceptableExtensionsTexture)
    case Text => Some(AcceptableExtensionsString)
    case Other => None
  }

  /** The lower-cased extension is an entry of the kind's table. */
  predicate Acceptable(kind: ContentKind, extension: string) {
    match ExtensionTable(kind)
    case Some(table) => ToLower(extension) in table
    case None => false
  }

  /** `IsAcceptableExtension`: picks the table, then searches it for the lower-cased extension. */
  method IsAcceptableExtension(kind: ContentKind, extension: string) returns (ok: bool)
    ensures ok == Acceptable(kind, extension)
  {
    var table: seq<string>;
    match ExtensionTable(kind) {
      case None =>
        return false;
      case Some(t) =>
        table := t;
    }
    var i := 0;
    while i < |table|
      invariant 0 <= i <= |table|
      invariant forall k :: 0 <= k < i ==> table[k] != ToLower(extension)
    {
      if ToLower(extension) == table[i] {
        return true;
      }
      i := i + 1;
    }
    return false;
  }

  // ----- audio -----

  /** The audio types `GetAudioTypeFromURI` chooses between. */
  datatype AudioType = OggVorbis | Wav

  predicate EndsWith(s: string, suffix: string) {
    |suffix| <= |s| && s[|s| - |suffix|..] == suffix
  }

  function GetAudioTypeFromURI(uri: string): AudioType {
    if EndsWith(uri, ".ogg") then OggVorbis else Wav
  }

  /** A file of the mod as the loader sees it. `isFilesystemFile` tells a plain file
      from other virtual files. */
  datatype VirtualFile = VirtualFile(
    fullPath: string,
    name: string,
    isFilesystemFile: bool,
    fileExists: bool,
    length: int)

  /** Audio files longer than this many bytes would be streamed. */
  const StreamThreshold := 307200

  predicate ShouldStreamAudioClipFromFile(file: VirtualFile) {
    if !file.isFilesystemFile || !file.fileExists then false else file.length > StreamThreshold
  }

  // ----- loading -----

  /** The outcome of an engine call: a value, or the exception it threw. */
  datatype Outcome<T> = Ok(value: T) | Threw(message: string)

  /** A texture handle; `BadTex` is the engine's placeholder texture. */
  datatype TextureRef = BadTex | TextureId(id: nat)

  datatype ClipRef = ClipId(id: nat)

  /** The engine calls `LoadItem` makes, each of which may throw. */
  datatype Engine = Engine(
    readAllText: VirtualFile -> Outcome<string>,
    loadImage: VirtualFile -> Outcome<TextureRef>,
    safeUri: string -> Outcome<string>,
    fetchAudio: (string, AudioType) -> Outcome<Option<ClipRef>>)

  /** The decoded payload; a texture read from a missing file and a clip the engine
      did not produce are absent. */
  datatype Payload =
    | TextContent(text: string)
    | TextureContent(texture: Option<TextureRef>)
    | AudioContent(clip: Option<ClipRef>)

  datatype LoadedContentItem = LoadedContentItem(file: VirtualFile, contents: Payload)

  /** `LoadTexture`: only an existing file is read and decoded. */
  function LoadTexture(file: VirtualFile, engine: Engine): Outcome<Option<TextureRef>> {
    if !file.fileExists then Ok(None)
    else match engine.loadImage(file)
      case Ok(texture) => Ok(Some(texture))
      case Threw(message) => Threw(message)
  }

  /** `LoadItem`: the decode for the kind, with the fallback taken when it throws. */
  function LoadItem(kind: ContentKind, file: VirtualFile, engine: Engine): Option<LoadedContentItem> {
    match kind
    case Text =>
      (match engine.readAllText(file)
       case Ok(text) => Some(LoadedContentItem(file, TextContent(text)))
       case Threw(_) => None)
    case Texture =>
      (match LoadTexture(file, engine)
       case Ok(texture) => Some(LoadedContentItem(file, TextureContent(texture)))
       case Threw(_) => Some(LoadedContentItem(file, TextureContent(Some(BadTex)))))
    case Audio =>
      (match engine.safeUri(file.fullPath)
       case Threw(_) => None
       case Ok(uri) =>
         match engine.fetchAudio(uri, GetAudioTypeFromURI(uri))
         case Ok(clip) => Some(LoadedContentItem(file, AudioContent(clip)))
         case Threw(_) => None)
    case Other => None
  }

  /** What `LoadAllForMod` yields for the first `n` entries of the mod's file map. */
  function LoadedEntries(kind: ContentKind, files: seq<(string, VirtualFile)>, engine: Engine, n: nat)
    : seq<(string, LoadedContentItem)>
    requires n <= |files|
  {
    if n == 0 then []
    else
      LoadedEntries(kind, files, engine, n - 1)
      + match LoadItem(kind, files[n - 1].1, engine)
        case Some(item) => [(files[n - 1].0, item)]
        case None => []
  }

  /** `LoadAllForMod`: loads every file of the map in enumeration order and keeps the
      entries whose item is not null. */
  method LoadAllForMod(kind: ContentKind, files: seq<(string, VirtualFile)>, engine: Engine)
    returns (loaded: seq<(string, LoadedContentItem)>)
    ensures loaded == LoadedEntries(kind, files, engine, |files|)
  {
    loaded := [];
    var i := 0;
    while i < |files|
      invariant 0 <= i <= |files|
      invariant loaded == LoadedEntries(kind, files, engine, i)
    {
      var (key, file) := files[i];
      var item := LoadItem(kind, file, engine);
      if item.Some? {
        loaded := loaded + [(key, item.value)];
      }
      i := i + 1;
    }
  }
}

/** Properties of the mod content loader. */
module ContentLoaderFacts {
  import opened Wrappers
  import opened ModContentLoader

  // ----- extensions -----

  lemma ToLowerIdempotent(s: string)
    ensures ToLower(ToLower(s)) == ToLower(s)
  {
    var once := ToLower(s);
    assert forall i :: 0 <= i < |s| ==> LowerChar(once[i]) == once[i];
  }

  /** Matching ignores case: an extension is accepted exactly when its lower-cased form is. */
  lemma AcceptableIgnoresCase(kind: ContentKind, extension: string)
    ensures Acceptable(kind, extension) == Acceptable(kind, ToLower(extension))
  {
    ToLowerIdempotent(extension);
  }

  lemma AudioExtensions(extension: string)
    ensures Acceptable(Audio, extension) <==>
      ToLower(extension) in {".wav", ".mp3", ".ogg", ".xm", ".it", ".mod", ".s3m"}
  {
  }

  lemma TextureExtensions(extension: string)
    ensures Acceptable(Texture, extension) <==> ToLower(extension) in {".png", ".jpg", ".jpeg", ".psd"}
  {
  }

  lemma TextExtensions(extension: string)
    ensures Acceptable(Text, extension) <==> ToLower(extension) == ".txt"
  {
  }

  lemma UnknownKindAcceptsNothing(extension: string)
    ensures !Acceptable(Other, extension)
  {
  }

  /** Only the ASCII dot lower-cases to a dot. */
  lemma LowerCharDot(c: char)
    ensures LowerChar(c) == '.' <==> c == '.'
  {
  }

  /** Every accepted extension starts with the dot, so a bare "png" is refused. */
  lemma AcceptableNeedsLeadingDot(kind: ContentKind, extension: string)
    ensures Acceptable(kind, extension) ==> |extension| > 0 && extension[0] == '.'
  {
    if Acceptable(kind, extension) {
      var table := ExtensionTable(kind).value;
      assert forall k :: 0 <= k < |table| ==> |table[k]| > 0 && table[k][0] == '.';
      var lower := ToLower(extension);
      assert lower in table;
      LowerCharDot(extension[0]);
    }
  }

  lemma BareExtensionRefused()
    ensures !Acceptable(Texture, "png")
  {
    AcceptableNeedsLeadingDot(Texture, "png");
  }

  lemma UpperCaseExtensionAccepted()
    ensures Acceptable(Texture, ".PNG")
    ensures Acceptable(Audio, ".Ogg")
  {
    assert ToLower(".PNG") == ".png";
    assert ToLower(".Ogg") == ".ogg";
  }

  /** No extension is accepted for two content kinds. */
  lemma ExtensionTablesDisjoint(extension: string, k1: ContentKind, k2: ContentKind)
    requires Acceptable(k1, extension) && Acceptable(k2, extension)
    ensures k1 == k2
  {
  }

  // ----- audio -----

  /** The Ogg Vorbis decoder is chosen exactly for URIs ending in ".ogg", in that case. */
  lemma OggExactlyForOggSuffix(uri: string)
    ensures GetAudioTypeFromURI(uri) == OggVorbis <==> exists stem :: uri == stem + ".ogg"
  {
    if GetAudioTypeFromURI(uri) == OggVorbis {
      var stem := uri[..|uri| - 4];
      assert uri == stem + ".ogg";
    }
    if exists stem :: uri == stem + ".ogg" {
      var stem :| uri == stem + ".ogg";
      assert uri[|uri| - 4..] == ".ogg";
    }
  }

  lemma AudioTypeIsCaseSensitive()
    ensures GetAudioTypeFromURI("file:///music/theme.OGG") == Wav
    ensures GetAudioTypeFromURI("file:///music/theme.mp3") == Wav
    ensures GetAudioTypeFromURI("file:///music/theme.ogg") == OggVorbis
  {
    assert "file:///music/theme.OGG"[19..] != ".ogg";
    assert "file:///music/theme.mp3"[19..] != ".ogg";
    assert "file:///music/theme.ogg"[19..] == ".ogg";
  }

  /** Streaming is decided by the size alone once the file is a plain, existing file:
      exactly the lengths above 307200 bytes stream. */
  lemma StreamingThreshold(file: VirtualFile)
    requires file.isFilesystemFile && file.fileExists
    ensures ShouldStreamAudioClipFromFile(file.(length := 307200)) == false
    ensures ShouldStreamAudioClipFromFile(file.(length := 307201))
    ensures ShouldStreamAudioClipFromFile(file) ==>
      forall longer: int :: longer >= file.length ==> ShouldStreamAudioClipFromFile(file.(length := longer))
  {
  }

  /** The streaming decision as one condition. */
  lemma StreamingExactly(file: VirtualFile)
    ensures ShouldStreamAudioClipFromFile(file) <==>
      file.isFilesystemFile && file.fileExists && file.length > StreamThreshold
  {
  }

  lemma NonFileNeverStreams(file: VirtualFile)
    requires !file.isFilesystemFile || !file.fileExists
    ensures !ShouldStreamAudioClipFromFile(file)
  {
  }

  // ----- loading -----

  /** A loaded item always belongs to the file it was loaded from. */
  lemma LoadItemKeepsFile(kind: ContentKind, file: VirtualFile, engine: Engine)
    ensures LoadItem(kind, file, engine).Some? ==> LoadItem(kind, file, engine).value.file == file
  {
  }

  /** Textures never come back null: a failed decode gives the placeholder, a missing
      file an item without a texture. */
  lemma TextureNeverNull(file: VirtualFile, engine: Engine)
    ensures LoadItem(Texture, file, engine).Some?
    ensures !file.fileExists ==> LoadItem(Texture, file, engine).value.contents == TextureContent(None)
    ensures file.fileExists && engine.loadImage(file).Threw? ==>
      LoadItem(Texture, file, engine).value.contents == TextureContent(Some(BadTex))
    ensures file.fileExists && engine.loadImage(file).Ok? ==>
      LoadItem(Texture, file, engine).value.contents == TextureContent(Some(engine.loadImage(file).value))
  {
  }

  /** Text and audio come back null exactly when one of their engine calls throws; any
      other kind always comes back null. */
  lemma NullOnlyAfterException(file: VirtualFile, engine: Engine)
    ensures LoadItem(Text, file, engine).None? <==> engine.readAllText(file).Threw?
    ensures var uri := engine.safeUri(file.fullPath);
      LoadItem(Audio, file, engine).None? <==>
        uri.Threw? || engine.fetchAudio(uri.value, GetAudioTypeFromURI(uri.value)).Threw?
    ensures LoadItem(Other, file, engine).None?
  {
  }

  /** The indices, below `n`, of the map entries whose item loads. */
  ghost function KeptIndices(kind: ContentKind, files: seq<(string, VirtualFile)>, engine: Engine, n: nat)
    : seq<nat>
    requires n <= |files|
  {
    if n == 0 then []
    else
      KeptIndices(kind, files, engine, n - 1)
      + (if LoadItem(kind, files[n - 1].1, engine).Some? then [n - 1] else [])
  }

  lemma {:induction false} LoadedEntriesUpTo(
    kind: ContentKind, files: seq<(string, VirtualFile)>, engine: Engine, n: nat)
    requires n <= |files|
    ensures var kept, out := KeptIndices(kind, files, engine, n), LoadedEntries(kind, files, engine, n);
      && |out| == |kept|
      && (forall t :: 0 <= t < |kept| ==>
            && kept[t] < n
            && LoadItem(kind, files[kept[t]].1, engine).Some?
            && out[t] == (files[kept[t]].0, LoadItem(kind, files[kept[t]].1, engine).value))
      && (forall s, t :: 0 <= s < t < |kept| ==> kept[s] < kept[t])
      && (forall k :: 0 <= k < n && LoadItem(kind, files[k].1, engine).Some? ==> k in kept)
  {
    if n > 0 {
      LoadedEntriesUpTo(kind, files, engine, n - 1);
    }
  }

  /** `LoadAllForMod` yields exactly the entries whose item loads, under their own keys,
      in the map's enumeration order. */
  lemma LoadAllForModKeepsLoadedEntriesInOrder(
    kind: ContentKind, files: seq<(string, VirtualFile)>, engine: Engine)
    ensures var kept, out := KeptIndices(kind, files, engine, |files|), LoadedEntries(kind, files, engine, |files|);
      && |out| == |kept|
      && (forall t :: 0 <= t < |kept| ==>
            && kept[t] < |files|
            && LoadItem(kind, files[kept[t]].1, engine).Some?
            && out[t] == (files[kept[t]].0, LoadItem(kind, files[kept[t]].1, engine).value))
      && (forall s, t :: 0 <= s < t < |kept| ==> kept[s] < kept[t])
      && (forall k :: 0 <= k < |files| && LoadItem(kind, files[k].1, engine).Some? ==> k in kept)
  {
    LoadedEntriesUpTo(kind, files, engine, |files|);
  }

  lemma {:induction false} TexturesLoadEveryEntryUpTo(
    files: seq<(string, VirtualFile)>, engine: Engine, n: nat)
    requires n <= |files|
    ensures |LoadedEntries(Texture, files, engine, n)| == n
    ensures forall t :: 0 <= t < n ==> LoadedEntries(Texture, files, engine, n)[t].0 == files[t].0
  {
    if n > 0 {
      TexturesLoadEveryEntryUpTo(files, engine, n - 1);
      TextureNeverNull(files[n - 1].1, engine);
    }
  }

  /** For textures nothing is dropped: every entry of the map comes out, in order. */
  lemma TexturesLoadEveryEntry(files: seq<(string, VirtualFile)>, engine: Engine)
    ensures |LoadedEntries(Texture, files, engine, |files|)| == |files|
    ensures forall t :: 0 <= t < |files| ==> LoadedEntries(Texture, files, engine, |files|)[t].0 == files[t].0
  {
    TexturesLoadEveryEntryUpTo(files, engine, |files|);
  }

  lemma {:induction false} UnknownKindLoadsNothing(
    files: seq<(string, VirtualFile)>, engine: Engine, n: nat)
    requires n <= |files|
    ensures LoadedEntries(Other, files, engine, n) == []
  {
    if n > 0 {
      UnknownKindLoadsNothing(files, engine, n - 1);
    }
  }
}

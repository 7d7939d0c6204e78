/** Persona templates and their mutable runtime copies, loaded from a
    directory of YAML/JSON files, and the length-prefixed request the voice
    proxy sends to the speech service. File contents, the directory listing
    and the socket are parameters. */
module Personas {
  import opened Values
  import opened Text
  import opened Bytes

  /** A persona document: the mapping a file holds. */
  type Persona = seq<(string, Json)>

  // ---- load_yaml ------------------------------------------------------------

  /** What reading one file gave: a read failure, or its text together with
      what the JSON and the YAML parser make of it (None when the parser
      raises; a YAML document that is empty parses to null). */
  datatype FileRead = ReadFailed | Read(text: string, asJson: Option<Json>, asYaml: Option<Json>)

  /** The document `load_yaml` inspects: with PyYAML, `safe_load(...) or {}`;
      without it, nothing for blank text, else the JSON document. */
  function LoadedDocument(yamlAvailable: bool, read: FileRead): Option<Json>
  {
    match read
    case ReadFailed => None
    case Read(text, asJson, asYaml) =>
      if yamlAvailable then
        (if asYaml.Some? then Some(PyOr(asYaml.value, EmptyObj)) else None)
      else if Trim(Py, text) == "" then None
      else asJson
  }

  /** `load_yaml(path)`: the document when it is a mapping, `{}` in every
      other case (unreadable file, blank text, parse error, non-mapping). */
  function LoadYaml(yamlAvailable: bool, read: FileRead): (p: Persona)
    ensures p != [] ==> LoadedDocument(yamlAvailable, read) == Some(JObj(p))
    ensures (LoadedDocument(yamlAvailable, read).None? || !LoadedDocument(yamlAvailable, read).value.JObj?) ==> p == []
  {
    var doc := LoadedDocument(yamlAvailable, read);
    if doc.Some? && doc.value.JObj? then doc.value.fields else []
  }

  /** Without PyYAML, blank files and JSON that is not an object load as
      empty personas. */
  lemma LoadYamlJsonFallback(text: string, asJson: Option<Json>, asYaml: Option<Json>)
    ensures Trim(Py, text) == "" ==> LoadYaml(false, Read(text, asJson, asYaml)) == []
    ensures Trim(Py, text) != "" && asJson.Some? && asJson.value.JObj? ==>
      LoadYaml(false, Read(text, asJson, asYaml)) == asJson.value.fields
    ensures asJson.Some? && !asJson.value.JObj? ==> LoadYaml(false, Read(text, asJson, asYaml)) == []
  {
  }

  // ---- file names -----------------------------------------------------------

  /** The position of the last `c` in `s`, or -1. */
  function LastIndexOf(s: string, c: char): (i: int)
    ensures -1 <= i < |s|
    ensures i == -1 <==> c !in s
    ensures i >= 0 ==> s[i] == c && forall j :: i < j < |s| ==> s[j] != c
  {
    if s == [] then -1
    else if s[|s| - 1] == c then |s| - 1
    else
      var i := LastIndexOf(s[..|s| - 1], c);
      assert c in s ==> c in s[..|s| - 1] by {
        if c in s {
          var j :| 0 <= j < |s| && s[j] == c;
          assert s[..|s| - 1][j] == c;
        }
      }
      i
  }

  /** `Path(name).suffix`: from the last '.', unless that dot starts the name
      or ends it. */
  function Suffix(name: string): (r: string)
    ensures r == [] || (r[0] == '.' && '.' !in r[1..] && |r| >= 2)
  {
    var i := LastIndexOf(name, '.');
    if 0 < i < |name| - 1 then
      assert name[i..][1..] == name[i + 1..];
      name[i..]
    else ""
  }

  /** `Path(name).stem`: the name without its suffix. */
  function Stem(name: string): string
  {
    var i := LastIndexOf(name, '.');
    if 0 < i < |name| - 1 then name[..i] else name
  }

  /** A name is its stem followed by its suffix. */
  lemma StemSuffix(name: string)
    ensures Stem(name) + Suffix(name) == name
  {
  }

  /** Only `.yaml`, `.yml` and `.json` files are personas, in any letter case. */
  predicate IsPersonaFile(name: string)
  {
    ToLowerAscii(Suffix(name)) in {".yaml", ".yml", ".json"}
  }

  /** A dot-file such as `.yaml` has no suffix, so it is not a persona. */
  lemma DotFileIgnored()
    ensures !IsPersonaFile(".yaml")
  {
    var name := ".yaml";
    assert name[0] == '.' && forall j :: 0 < j < 5 ==> name[j] != '.';
    assert LastIndexOf(name, '.') == 0;
  }

  // ---- the templates a reload produces ---------------------------------------

  /** One directory entry, in the sorted order the reload visits. */
  datatype PersonaFile = PersonaFile(name: string, read: FileRead)

  function DefaultPersona(): Persona
  {
    [("name", JStr("default")), ("system_prompt", JStr("")), ("profile", EmptyObj)]
  }

  /** The templates loaded from the files, each under its stem; a later file
      with the same stem replaces an earlier one's document. */
  function Loaded(yamlAvailable: bool, files: seq<PersonaFile>): Dict<string, Persona>
  {
    if files == [] then []
    else
      var prev := Loaded(yamlAvailable, files[..|files| - 1]);
      var f := files[|files| - 1];
      if IsPersonaFile(f.name) then Put(prev, Stem(f.name), LoadYaml(yamlAvailable, f.read)) else prev
  }

  /** The templates after `reload`: the loaded ones (none when the directory
      is missing), with the default persona added when no file supplied it. */
  function Templates(yamlAvailable: bool, dirExists: bool, files: seq<PersonaFile>): Dict<string, Persona>
  {
    var loaded := if dirExists then Loaded(yamlAvailable, files) else [];
    if HasKey(loaded, "default") then loaded else Put(loaded, "default", DefaultPersona())
  }

  /** The last persona file with a given stem, which is the one whose
      document the reload keeps. */
  function LastFile(files: seq<PersonaFile>, key: string): (r: Option<PersonaFile>)
    ensures r.Some? ==> r.value in files && IsPersonaFile(r.value.name) && Stem(r.value.name) == key
    ensures r.None? ==> forall f :: f in files && IsPersonaFile(f.name) ==> Stem(f.name) != key
  {
    if files == [] then None
    else
      var f := files[|files| - 1];
      if IsPersonaFile(f.name) && Stem(f.name) == key then Some(f)
      else
        var r := LastFile(files[..|files| - 1], key);
        assert forall g :: g in files ==> g in files[..|files| - 1] || g == f;
        r
  }

  /** Each persona file's stem looks up the document of the last file with
      that stem; nothing else is present; no key is present twice. */
  lemma {:induction false} LoadedLookup(yamlAvailable: bool, files: seq<PersonaFile>, key: string)
    ensures DistinctKeys(Loaded(yamlAvailable, files))
    ensures Lookup(Loaded(yamlAvailable, files), key) ==
      if LastFile(files, key).Some? then Some(LoadYaml(yamlAvailable, LastFile(files, key).value.read)) else None
    decreases |files|
  {
    if files != [] {
      var prev := Loaded(yamlAvailable, files[..|files| - 1]);
      var f := files[|files| - 1];
      LoadedLookup(yamlAvailable, files[..|files| - 1], key);
      if IsPersonaFile(f.name) {
        PutLookup(prev, Stem(f.name), LoadYaml(yamlAvailable, f.read), key);
        PutDistinct(prev, Stem(f.name), LoadYaml(yamlAvailable, f.read));
      }
    }
  }

  /** After a reload the default persona is always present: the last
      `default.*` file's document when there is one, else the seeded one. */
  lemma TemplatesDefault(yamlAvailable: bool, dirExists: bool, files: seq<PersonaFile>)
    ensures DistinctKeys(Templates(yamlAvailable, dirExists, files))
    ensures Lookup(Templates(yamlAvailable, dirExists, files), "default") ==
      if dirExists && LastFile(files, "default").Some?
      then Some(LoadYaml(yamlAvailable, LastFile(files, "default").value.read))
      else Some(DefaultPersona())
  {
    var loaded := if dirExists then Loaded(yamlAvailable, files) else [];
    if dirExists {
      LoadedLookup(yamlAvailable, files, "default");
    }
    PutLookup(loaded, "default", DefaultPersona(), "default");
    PutDistinct(loaded, "default", DefaultPersona());
  }

  /** Every other key present after a reload is the stem of a persona file. */
  lemma TemplatesOther(yamlAvailable: bool, dirExists: bool, files: seq<PersonaFile>, key: string)
    requires key != "default"
    ensures Lookup(Templates(yamlAvailable, dirExists, files), key) ==
      if dirExists && LastFile(files, key).Some?
      then Some(LoadYaml(yamlAvailable, LastFile(files, key).value.read))
      else None
  {
    var loaded := if dirExists then Loaded(yamlAvailable, files) else [];
    if dirExists {
      LoadedLookup(yamlAvailable, files, key);
    }
    PutLookup(loaded, "default", DefaultPersona(), key);
  }

  /** A lookup with the manager's fallback to the default persona for an
      unknown id. */
  function Resolve(store: Dict<string, Persona>, personaId: string): Option<Persona>
  {
    var persona := Lookup(store, personaId);
    if persona.None? && personaId != "default" then Lookup(store, "default") else persona
  }

  /** The loader: persona templates and the runtime state derived from them. */
  class PersonaManager {
    var personas: Dict<string, Persona>
    var activeStates: Dict<string, Persona>

    /** Both maps name the same personas, the default among them. */
    ghost predicate Valid()
      reads this
    {
      HasKey(personas, "default") && forall k :: HasKey(personas, k) <==> HasKey(activeStates, k)
    }

    constructor (yamlAvailable: bool, dirExists: bool, files: seq<PersonaFile>)
      ensures personas == Templates(yamlAvailable, dirExists, files)
      ensures activeStates == personas
      ensures Valid()
    {
      personas := [];
      activeStates := [];
      new;
      Reload(yamlAvailable, dirExists, files);
    }

    /** `reload`: both maps rebuilt from scratch, every active state equal to
        its template. */
    method Reload(yamlAvailable: bool, dirExists: bool, files: seq<PersonaFile>)
      modifies this
      ensures personas == Templates(yamlAvailable, dirExists, files)
      ensures activeStates == personas
      ensures Valid()
    {
      personas := [];
      activeStates := [];
      if dirExists {
        LoadDirectory(yamlAvailable, files);
      }
      if !HasKey(personas, "default") {
        personas := Put(personas, "default", DefaultPersona());
        activeStates := Put(activeStates, "default", DefaultPersona());
      }
      TemplatesDefault(yamlAvailable, dirExists, files);
    }

    /** The directory loop of `reload`, starting from two empty maps: each
        persona file's document goes under its stem in both. */
    method LoadDirectory(yamlAvailable: bool, files: seq<PersonaFile>)
      requires personas == [] && activeStates == []
      modifies this
      ensures personas == Loaded(yamlAvailable, files)
      ensures activeStates == personas
    {
      var i := 0;
      while i < |files|
        invariant 0 <= i <= |files|
        invariant personas == Loaded(yamlAvailable, files[..i])
        invariant activeStates == personas
      {
        var entry := files[i];
        if IsPersonaFile(entry.name) {
          var data := LoadYaml(yamlAvailable, entry.read);
          var key := Stem(entry.name);
          personas := Put(personas, key, data);
          activeStates := Put(activeStates, key, data);
        }
        assert files[..i + 1][..i] == files[..i];
        i := i + 1;
      }
      assert files[..i] == files;
    }

    /** `list_personas`: a copy of the templates. */
    function ListPersonas(): (r: Dict<string, Persona>)
      reads this
      ensures Keys(r) == Keys(personas)
      ensures forall k :: Lookup(r, k) == Lookup(personas, k)
    {
      personas
    }

    /** `get(persona_id, original)`: the runtime state (or the template when
        `original`), falling back to the default persona for an unknown id. */
    function Get(personaId: string, original: bool): (r: Option<Persona>)
      reads this
      ensures var store := if original then personas else activeStates;
        (HasKey(store, personaId) ==> r == Lookup(store, personaId))
        && (!HasKey(store, personaId) && personaId != "default" ==> r == Lookup(store, "default"))
        && (r.None? <==> !HasKey(store, personaId) && !HasKey(store, "default"))
      ensures Valid() ==> r.Some?
    {
      Resolve(if original then personas else activeStates, personaId)
    }

    /** `reset(persona_id)`: the runtime state of a known persona goes back
        to its template; nothing else changes. */
    method Reset(personaId: string) returns (ok: bool)
      modifies this
      ensures ok <==> HasKey(personas, personaId)
      ensures personas == old(personas)
      ensures !ok ==> activeStates == old(activeStates)
      ensures ok ==> Lookup(activeStates, personaId) == Lookup(personas, personaId)
      ensures ok ==> activeStates == Put(old(activeStates), personaId, Lookup(personas, personaId).value)
      ensures forall k :: k != personaId ==> Lookup(activeStates, k) == old(Lookup(activeStates, k))
      ensures old(Valid()) ==> Valid()
    {
      var template := Lookup(personas, personaId);
      if template.None? {
        return false;
      }
      ghost var before := activeStates;
      activeStates := Put(activeStates, personaId, template.value);
      forall k
        ensures Lookup(activeStates, k) == if k == personaId then template else Lookup(before, k)
        ensures HasKey(activeStates, k) <==> k == personaId || HasKey(before, k)
      {
        PutLookup(before, personaId, template.value, k);
      }
      ok := true;
    }
  }

  // ---- the voice request -----------------------------------------------------

  /** The request frame: the UTF-8 text's length as four little-endian
      bytes, then the text. None where `to_bytes` raises OverflowError
      (the text is 4 GiB or longer). */
  function VoiceFrame(text: string): (frame: Option<seq<byte>>)
    ensures frame.Some? <==> |Utf8(text)| < Two32
    ensures frame.Some? ==> |frame.value| == 4 + |Utf8(text)|
  {
    var payload := Utf8(text);
    if |payload| < Two32 then Some(Le32(|payload|) + payload) else None
  }

  /** The receiver reads the length back from the first four bytes and
      decodes exactly the text from the rest. */
  lemma VoiceFrameRoundTrip(text: string)
    requires VoiceFrame(text).Some?
    ensures var f := VoiceFrame(text).value;
      FromLe32(f[..4]) == |f| - 4 && Decode(f[4..]) == Some(Codes(text))
  {
    var payload := Utf8(text);
    var f := VoiceFrame(text).value;
    assert f[..4] == Le32(|payload|) && f[4..] == payload;
    Le32RoundTrip(|payload|);
    Utf8RoundTrip(text);
  }

  /** One `reader.read(...)`: bytes (empty at end of stream) or an I/O error. */
  datatype ReadStep = Data(bytes: seq<byte>) | IoError

  /** The audio read up to the end of stream, or None when a read fails
      first. Reads past the end of the list are end of stream. */
  function Collected(steps: seq<ReadStep>): Option<seq<byte>>
  {
    if steps == [] then Some([])
    else match steps[0]
      case IoError => None
      case Data(bytes) =>
        if bytes == [] then Some([])
        else
          var rest := Collected(steps[1..]);
          if rest.None? then None else Some(bytes + rest.value)
  }

  /** `synthesize(text)`'s result: empty bytes on a connect failure, a
      failed write or read, else every byte read until end of stream. */
  function SynthesisResult(text: string, connected: bool, writeOk: bool, steps: seq<ReadStep>): (audio: seq<byte>)
  {
    if !connected || VoiceFrame(text).None? || !writeOk then []
    else
      var c := Collected(steps);
      if c.None? then [] else c.value
  }

  function Concat(chunks: seq<seq<byte>>): seq<byte>
  {
    if chunks == [] then [] else Concat(chunks[..|chunks| - 1]) + chunks[|chunks| - 1]
  }

  /** `b"".join(chunks)` prepended to what is still to be collected. */
  function Prepend(done: seq<byte>, rest: Option<seq<byte>>): Option<seq<byte>>
  {
    if rest.None? then None else Some(done + rest.value)
  }

  /** `VoiceProxy.synthesize(text)`: whether the connection opened and the
      frame was written, and what each read returns, are parameters;
      `sent` is the frame written, if any. */
  method Synthesize(text: string, connected: bool, writeOk: bool, steps: seq<ReadStep>)
    returns (audio: seq<byte>, sent: Option<seq<byte>>)
    ensures audio == SynthesisResult(text, connected, writeOk, steps)
    ensures sent == if connected then VoiceFrame(text) else None
  {
    if !connected {
      return [], None;
    }
    sent := VoiceFrame(text);
    if sent.None? || !writeOk {
      return [], sent;
    }
    var chunks: seq<seq<byte>> := [];
    var i := 0;
    assert steps[0..] == steps;
    assert Collected(steps).Some? ==> [] + Collected(steps).value == Collected(steps).value;
    while i < |steps|
      invariant 0 <= i <= |steps|
      invariant Collected(steps) == Prepend(Concat(chunks), Collected(steps[i..]))
    {
      assert steps[i..][0] == steps[i] && steps[i..][1..] == steps[i + 1..];
      match steps[i] {
        case IoError =>
          return [], sent;
        case Data(chunk) =>
          if chunk == [] {
            break;
          }
          var rest := Collected(steps[i + 1..]);
          assert Collected(steps[i..]) == Prepend(chunk, rest);
          assert (chunks + [chunk])[..|chunks|] == chunks;
          assert Concat(chunks + [chunk]) == Concat(chunks) + chunk;
          assert rest.Some? ==> Concat(chunks) + (chunk + rest.value) == (Concat(chunks) + chunk) + rest.value;
          chunks := chunks + [chunk];
      }
      i := i + 1;
    }
    assert i == |steps| ==> steps[i..] == [];
    audio := Concat(chunks);
  }

  /** A failure anywhere before the end of stream loses all audio read so far. */
  lemma ReadFailureLosesAudio(text: string, chunk: seq<byte>)
    requires VoiceFrame(text).Some? && chunk != []
    ensures SynthesisResult(text, true, true, [Data(chunk), IoError]) == []
  {
    assert [Data(chunk), IoError][1..] == [IoError];
    assert Collected([IoError]) == None;
    assert Collected([Data(chunk), IoError]) == None;
  }
}

/** Saving and loading the device state through its private file: the atomic save that the identity protocol builds on. */
module StateFile {
  import opened Wrappers
  import opened DurableCell
  import opened PrivateFile
  import opened IdentityProtocol

  const MAXIMUM_BYTES := 64 * 1024

  type Encoder = DeviceState -> string

  // None stands for content that does not decode to a valid state.
  type Decoder = string -> Option<DeviceState>

  function StateOf(found: Option<Node>, decode: Decoder): Option<DeviceState> {
    if found.None? then None else decode(found.value.content)
  }

  // The file as the protocol sees it: the state it shows and the states a power loss may leave.
  ghost function StateCell(fs: Fs, name: string, decode: Decoder): Cell<Option<DeviceState>> {
    Decoded(View(fs, name), found => StateOf(found, decode))
  }

  // One attempt to write the encoded state is one attempt to save the state, with the same result.
  lemma WriteRefinesSave(
    before: Fs, after: Fs, name: string, euid: nat, s: DeviceState, encode: Encoder, decode: Decoder, result: SaveResult)
    requires before.Valid() && Progress(before, after, name, NewFile(euid, encode(s)), result)
    requires decode(encode(s)) == Some(s)
    ensures StateCell(after, name, decode) == AfterSave(StateCell(before, name, decode), Some(s), result)
    ensures StateCell(before, name, decode).Valid()
  {
    assert View(before, name).Valid() by {
      assert before.entries in before.survivors;
    }
    DecodingCommutesWithSave(View(before, name), Some(NewFile(euid, encode(s))), result, found => StateOf(found, decode));
  }

  ghost predicate MaySaveState(fs: Fs, name: string, euid: nat, s: DeviceState, encode: Encoder) {
    ValidDeviceState(s) && |encode(s)| <= MAXIMUM_BYTES && IsReplaceable(fs, name, euid)
  }

  // stateStore.Save
  method Save(directory: PrivateDirectory, name: string, s: DeviceState, encode: Encoder, decode: Decoder)
    returns (ok: bool, ghost result: SaveResult)
    requires directory.Valid() && directory.fs.Intact(name) && !IsTemporaryName(name)
    requires ValidDeviceState(s) ==> decode(encode(s)) == Some(s)
    modifies directory
    ensures directory.Valid() && directory.fs.Intact(name)
    ensures StateCell(directory.fs, name, decode) == AfterSave(old(StateCell(directory.fs, name, decode)), Some(s), result)
    ensures ok <==> result == Saved
    ensures ok ==> ValidDeviceState(s) && |encode(s)| <= MAXIMUM_BYTES
    // It refuses an invalid or too large state and files that are not private, and nothing else if no primitive fails.
    ensures !MaySaveState(old(directory.fs), name, directory.euid, s, encode) ==> !ok && directory.fs == old(directory.fs)
    ensures directory.reliable && MaySaveState(old(directory.fs), name, directory.euid, s, encode) ==> ok
  {
    result := NotReplaced;
    if !ValidDeviceState(s) {
      return false, result;
    }
    var content := encode(s);
    if |content| > MAXIMUM_BYTES {
      return false, result;
    }
    ghost var before := directory.fs;
    ok, result := directory.WriteAtomicPrivateFile(name, content);
    WriteRefinesSave(before, directory.fs, name, directory.euid, s, encode, decode, result);
  }

  // ---- State and config in one directory ----

  type ConfigDecoder = string -> ConfigFile

  function FileIn(files: map<string, Node>, name: string): Option<Node> {
    if name in files then Some(files[name]) else None
  }

  // A missing config is read as one without settings.
  function ConfigOf(found: Option<Node>, decode: ConfigDecoder): ConfigFile {
    if found.None? then ConfigFile(None, None, map[]) else decode(found.value.content)
  }

  // How to read the agent's two files
  datatype Reading = Reading(stateName: string, configName: string, state: Decoder, config: ConfigDecoder)

  function Read(files: map<string, Node>, reading: Reading): Files {
    Files(StateOf(FileIn(files, reading.stateName), reading.state), ConfigOf(FileIn(files, reading.configName), reading.config))
  }

  function Reader(reading: Reading): map<string, Node> -> Files { files => Read(files, reading) }

  // Both files as the protocol sees them, with the versions of the directory that a power loss may leave.
  ghost function FilesCell(fs: Fs, reading: Reading): Cell<Files> {
    Decoded(DirectoryView(fs), Reader(reading))
  }

  // Writing the state is one attempt to save both files with the config unchanged.
  lemma StateWriteRefinesSave(
    before: Fs, after: Fs, reading: Reading, euid: nat, s: DeviceState, encode: Encoder, result: SaveResult)
    requires before.Valid() && reading.stateName != reading.configName && reading.state(encode(s)) == Some(s)
    requires ProgressTogether(before, after, reading.stateName, NewFile(euid, encode(s)), result)
    ensures var files := FilesCell(before, reading);
            FilesCell(after, reading) == AfterSave(files, files.visible.(state := Some(s)), result)
  {
    VisibleIsAVersion(before);
    var content := DirectoryView(before).visible[reading.stateName := NewFile(euid, encode(s))];
    DecodingCommutesWithSave(DirectoryView(before), content, result, Reader(reading));
  }

  // Writing the config is one attempt to save both files with the state unchanged.
  lemma ConfigWriteRefinesSave(
    before: Fs, after: Fs, reading: Reading, euid: nat, config: ConfigFile, text: string, result: SaveResult)
    requires before.Valid() && reading.stateName != reading.configName && reading.config(text) == config
    requires ProgressTogether(before, after, reading.configName, NewFile(euid, text), result)
    ensures var files := FilesCell(before, reading);
            FilesCell(after, reading) == AfterSave(files, files.visible.(config := config), result)
  {
    VisibleIsAVersion(before);
    var content := DirectoryView(before).visible[reading.configName := NewFile(euid, text)];
    DecodingCommutesWithSave(DirectoryView(before), content, result, Reader(reading));
  }

  lemma VisibleIsAVersion(fs: Fs)
    requires fs.Valid()
    ensures DirectoryView(fs).Valid()
  {
    assert fs.entries in fs.survivors;
  }

  // A power loss leaves one version of both files.
  lemma PowerLossPicksBoth(fs: Fs, after: Fs, reading: Reading)
    requires fs.Valid() && fs.AllIntact() && PrivateFile.PowerLoss(fs, after)
    ensures FilesCell(after, reading).visible in FilesCell(fs, reading).outcomes
    ensures FilesCell(after, reading) == AfterPowerLoss(FilesCell(after, reading).visible)
  {
    PowerLossPicksAVersion(fs, after);
    assert Read(DirectoryView(after).visible, reading) in FilesCell(after, reading).outcomes;
  }
}

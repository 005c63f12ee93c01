/**
 * The layered slice-settings store: a stack of layers, each a dictionary
 * from setting name to value (layer 0 the absolute defaults, 1 the editable
 * base settings, 2 quality, 3 material). A read takes the top-most layer that
 * defines the setting; a save writes one layer and raises the uncommitted
 * flag; settings files are read as `key = value` lines.
 */
module SliceSettings {
  import opened Strings

  /** One layer's dictionary; a setting is reduced to its value. */
  type Layer = map<string, string>

  /** What a read of an undefined setting returns. */
  const Unknown: string := "Unknown"

  // ---- reading through the layers ----

  /** Layer i defines the key and no layer above it does. */
  ghost predicate TopLayerWith(layers: seq<Layer>, key: string, i: int)
  {
    0 <= i < |layers| && key in layers[i] && forall j :: i < j < |layers| ==> key !in layers[j]
  }

  ghost predicate InSomeLayer(layers: seq<Layer>, key: string)
  {
    exists i :: 0 <= i < |layers| && key in layers[i]
  }

  /** GetActiveValue's answer: the value in the top-most layer defining the key, or "Unknown". */
  function ActiveValue(layers: seq<Layer>, key: string): (value: string)
    ensures !InSomeLayer(layers, key) ==> value == Unknown
    ensures forall i :: TopLayerWith(layers, key, i) ==> value == layers[i][key]
  {
    if |layers| == 0 then Unknown
    else if key in layers[|layers| - 1] then layers[|layers| - 1][key]
    else
      var below := layers[..|layers| - 1];
      assert forall i :: TopLayerWith(layers, key, i) ==> TopLayerWith(below, key, i);
      assert InSomeLayer(below, key) <== InSomeLayer(layers, key);
      ActiveValue(below, key)
  }

  /** A key some layer defines has a top-most layer defining it. */
  lemma {:induction false} TopLayerExists(layers: seq<Layer>, key: string)
    requires InSomeLayer(layers, key)
    ensures exists i :: TopLayerWith(layers, key, i)
  {
    var last := |layers| - 1;
    if key in layers[last] {
      assert TopLayerWith(layers, key, last);
    } else {
      var below := layers[..last];
      var i :| 0 <= i < |layers| && key in layers[i];
      assert i < last && below[i] == layers[i];
      TopLayerExists(below, key);
      var t :| TopLayerWith(below, key, t);
      assert TopLayerWith(layers, key, t);
    }
  }

  /** A read yields a value other than "Unknown" exactly when the top-most defining layer holds it. */
  lemma ValueMeans(layers: seq<Layer>, key: string, expected: string)
    requires expected != Unknown
    ensures ActiveValue(layers, key) == expected
      <==> exists i :: TopLayerWith(layers, key, i) && layers[i][key] == expected
  {
    if ActiveValue(layers, key) == expected {
      TopLayerExists(layers, key);
    }
  }

  /**
   * SettingExistsInLayer: membership of the key in the given layer; a
   * layer index past the last layer is answered with false.
   */
  function SettingExistsInLayer(layers: seq<Layer>, key: string, layer: nat): (found: bool)
    ensures found <==> layer < |layers| && key in layers[layer]
  {
    if layer < |layers| then key in layers[layer] else false
  }

  /**
   * The two queries agree: a key the top layer holds is what a read
   * returns, and a key no layer holds reads as "Unknown".
   */
  lemma ExistsInTopLayerIsActive(layers: seq<Layer>, key: string)
    requires |layers| > 0
    ensures SettingExistsInLayer(layers, key, |layers| - 1)
      ==> ActiveValue(layers, key) == layers[|layers| - 1][key]
    ensures (forall i: nat :: !SettingExistsInLayer(layers, key, i)) ==> ActiveValue(layers, key) == Unknown
  {
    if SettingExistsInLayer(layers, key, |layers| - 1) {
      assert TopLayerWith(layers, key, |layers| - 1);
    }
    if forall i: nat :: !SettingExistsInLayer(layers, key, i) {
      forall i | 0 <= i < |layers| ensures key !in layers[i] {
        assert !SettingExistsInLayer(layers, key, i);
      }
      assert !InSomeLayer(layers, key);
    }
  }

  // ---- feature flags ----

  /** The boolean settings read as feature flags. */
  datatype Feature =
    | Fan | CenterOnBed | ResetConnection | HardwareLeveling | SdCardReader
    | PowerControl | HeatedBed | SupportMaterial | Raft

  function FeatureKey(f: Feature): string
  {
    match f
    case Fan => "has_fan"
    case CenterOnBed => "center_part_on_bed"
    case ResetConnection => "show_reset_connection"
    case HardwareLeveling => "has_hardware_leveling"
    case SdCardReader => "has_sd_card_reader"
    case PowerControl => "has_power_control"
    case HeatedBed => "has_heated_bed"
    case SupportMaterial => "support_material"
    case Raft => "create_raft"
  }

  /**
   * HasFan, HasSdCardReader, HasHeatedBed and the other flags: on exactly
   * when the top-most layer defining the setting holds the text "1"; a
   * setting no layer defines leaves the flag off.
   */
  function FeatureOn(layers: seq<Layer>, f: Feature): (on: bool)
    ensures on <==> exists i :: TopLayerWith(layers, FeatureKey(f), i) && layers[i][FeatureKey(f)] == "1"
  {
    ValueMeans(layers, FeatureKey(f), "1");
    ActiveValue(layers, FeatureKey(f)) == "1"
  }

  /** IsMakerbotGCodeFlavor: the flavour setting reads exactly "makerbot". */
  function IsMakerbotGCodeFlavor(layers: seq<Layer>): (on: bool)
    ensures on <==> exists i :: TopLayerWith(layers, "gcode_flavor", i) && layers[i]["gcode_flavor"] == "makerbot"
  {
    ValueMeans(layers, "gcode_flavor", "makerbot");
    ActiveValue(layers, "gcode_flavor") == "makerbot"
  }

  /** "Unknown" is not a number to Int32.TryParse. */
  lemma UnknownIsNotANumber()
    ensures TryParseInt(Unknown) == None
  {
    TrimOfTrimmed(Unknown, true);
    assert !IsDigit(Unknown[0]) && Unknown[0] != '-' && Unknown[0] != '+';
    assert !AllDigits(Unknown);
  }

  /**
   * ExtruderCount: the extruder_count setting when Int32.TryParse accepts
   * it, and 1 otherwise, so an undefined setting means one extruder.
   */
  function ExtruderCount(layers: seq<Layer>): (count: int)
    ensures InInt32(count)
    ensures !InSomeLayer(layers, "extruder_count") ==> count == 1
  {
    UnknownIsNotANumber();
    match TryParseInt(ActiveValue(layers, "extruder_count"))
    case Some(n) => n
    case None => 1
  }

  // ---- saving ----

  /** The layers with one layer's key set to a value. */
  function Saved(layers: seq<Layer>, key: string, value: string, index: nat): seq<Layer>
    requires index < |layers|
  {
    layers[index := layers[index][key := value]]
  }

  /**
   * A saved value is what reads return unless a higher layer defines the
   * key, in which case reads are unchanged.
   */
  lemma SavedVisibility(layers: seq<Layer>, key: string, value: string, index: nat)
    requires index < |layers|
    ensures var r := ActiveValue(Saved(layers, key, value, index), key);
      if exists j :: index < j < |layers| && key in layers[j] then r == ActiveValue(layers, key) else r == value
  {
    var s := Saved(layers, key, value, index);
    if exists j :: index < j < |layers| && key in layers[j] {
      TopLayerExists(layers, key);
      var t :| TopLayerWith(layers, key, t);
      assert index < t;
      assert s[t] == layers[t];
      assert TopLayerWith(s, key, t);
    } else {
      assert TopLayerWith(s, key, index);
    }
  }

  /** The extruder count saved as text in the top layer reads back. */
  lemma SavedExtruderCount(layers: seq<Layer>, n: int)
    requires |layers| > 0 && InInt32(n)
    ensures ExtruderCount(Saved(layers, "extruder_count", IntToString(n), |layers| - 1)) == n
  {
    SavedVisibility(layers, "extruder_count", IntToString(n), |layers| - 1);
    ParseIntToString(n);
  }

  /** The notifications the store raises. */
  datatype Notice = SettingsChanged | CommitStatusChanged

  /** The store's state: the layers, the uncommitted flag, the settings hash and the notices raised. */
  datatype Store = Store(layers: seq<Layer>, uncommitted: bool, hashCode: int, notices: seq<Notice>)

  /** The HasUncommittedChanges setter: CommitStatusChanged only on a real change. */
  function SetUncommitted(s: Store, value: bool): Store
  {
    s.(uncommitted := value,
       notices := s.notices + if s.uncommitted != value then [CommitStatusChanged] else [])
  }

  /** SaveValue: the layer entry is written, the hash reset, and the store marked uncommitted. */
  function Save(s: Store, key: string, value: string, index: nat): Store
    requires index < |s.layers|
  {
    SetUncommitted(s.(layers := Saved(s.layers, key, value, index), hashCode := 0,
                      notices := s.notices + [SettingsChanged]), true)
  }

  /** CommitChanges: the store is marked committed (the database writes are not modelled). */
  function Commit(s: Store): Store
  {
    SetUncommitted(s, false)
  }

  /**
   * After a save the layer maps the key to the value, no other layer and
   * no other key of that layer changes, and the store is uncommitted.
   */
  lemma SaveEffect(s: Store, key: string, value: string, index: nat)
    requires index < |s.layers|
    ensures var r := Save(s, key, value, index);
      && |r.layers| == |s.layers|
      && key in r.layers[index] && r.layers[index][key] == value
      && (forall k :: k != key ==> (k in r.layers[index] <==> k in s.layers[index]))
      && (forall k :: k != key && k in s.layers[index] ==> r.layers[index][k] == s.layers[index][k])
      && (forall j :: 0 <= j < |s.layers| && j != index ==> r.layers[j] == s.layers[j])
      && r.uncommitted && r.hashCode == 0
  {
  }

  /** A second save raises only SettingsChanged: the flag is already up. */
  lemma SaveTwiceNotices(s: Store, key: string, value: string, index: nat, key2: string, value2: string, index2: nat)
    requires index < |s.layers| && index2 < |s.layers|
    ensures var once := Save(s, key, value, index);
      Save(once, key2, value2, index2).notices == once.notices + [SettingsChanged]
  {
  }

  /** A commit leaves the flag down, and a second commit raises nothing more. */
  lemma CommitIdempotent(s: Store)
    ensures !Commit(s).uncommitted && Commit(s).layers == s.layers
    ensures Commit(Commit(s)) == Commit(s)
    ensures Commit(s).notices == s.notices + if s.uncommitted then [CommitStatusChanged] else []
  {
  }

  // ---- settings files ----

  /** How LoadConfigurationSettingsFromFile reads one line. */
  datatype IniLine = Comment | Entry(key: string, value: string) | Malformed

  /**
   * A line starting with `#` is a comment; otherwise it is split on `=`
   * and the first two pieces, trimmed, are the key and the value. A line
   * with no `=` has no second piece: reading it fails.
   */
  function ReadIniLine(line: string): (r: IniLine)
    ensures r.Comment? <==> StartsWith(line, "#")
    ensures r.Malformed? <==> !StartsWith(line, "#") && '=' !in line
  {
    if StartsWith(line, "#") then Comment
    else
      var fields := Split(line, '=');
      if |fields| < 2 then Malformed else Entry(Trim(fields[0]), Trim(fields[1]))
  }

  /**
   * A `key=value` line reads as the trimmed key and the trimmed value up to
   * any further `=`: the text after a second `=` is dropped.
   */
  lemma ReadKeyValue(key: string, value: string)
    requires '=' !in key && (key == [] || key[0] != '#')
    ensures ReadIniLine(key + "=" + value) == Entry(Trim(key), Trim(FirstField(value, '=')))
  {
    var line := key + "=" + value;
    assert !StartsWith(line, "#") by {
      if key == [] { assert line[0] == '='; } else { assert line[0] == key[0]; }
    }
    assert Split(line, '=') == [key] + Split(value, '=') by {
      IndexOfAfter(key, '=', value);
      SplitAt(line, '=', |key|);
      assert line[..|key|] == key && line[|key| + 1..] == value;
    }
    FirstFieldIsFirstPiece(value, '=');
    EntryFields(line, key, FirstField(value, '='));
  }

  /** A line that is not a comment and whose first two pieces are known reads as those pieces, trimmed. */
  lemma EntryFields(line: string, first: string, second: string)
    requires !StartsWith(line, "#")
    requires |Split(line, '=')| >= 2 && Split(line, '=')[0] == first && Split(line, '=')[1] == second
    ensures ReadIniLine(line) == Entry(Trim(first), Trim(second))
  {
  }

  /** Every line of a file, as ReadIniLine reads it. */
  function ReadLines(lines: seq<string>): (read: seq<IniLine>)
    ensures |read| == |lines|
  {
    seq(|lines|, i requires 0 <= i < |lines| => ReadIniLine(lines[i]))
  }

  /**
   * The layer read lines build: comments are skipped, an entry is added,
   * and a malformed line or a key seen before makes the whole load fail
   * (the dictionary refuses a duplicate key).
   */
  function LayerFromEntries(read: seq<IniLine>, acc: Layer): Option<Layer>
  {
    if read == [] then Some(acc)
    else
      match read[0]
      case Comment => LayerFromEntries(read[1..], acc)
      case Malformed => None
      case Entry(k, v) => if k in acc then None else LayerFromEntries(read[1..], acc[k := v])
  }

  /** LoadConfigurationSettingsFromFile: nothing when the file is missing, else the layer its lines build. */
  function LoadedLayer(file: Option<seq<string>>): Option<Layer>
  {
    match file
    case None => None
    case Some(lines) => LayerFromEntries(ReadLines(lines), map[])
  }

  /** A successful load keeps what was already gathered and had no malformed line. */
  lemma {:induction false} LoadedKeepsGathered(read: seq<IniLine>, acc: Layer)
    ensures var r := LayerFromEntries(read, acc);
      r.Some? ==>
        && (forall k :: k in acc ==> k in r.value && r.value[k] == acc[k])
        && (forall i :: 0 <= i < |read| ==> !read[i].Malformed?)
  {
    if read != [] {
      match read[0]
      case Comment =>
        LoadedKeepsGathered(read[1..], acc);
        assert forall i :: 0 < i < |read| ==> read[i] == read[1..][i - 1];
      case Malformed =>
      case Entry(k, v) =>
        if k !in acc {
          var r := LayerFromEntries(read, acc);
          assert r == LayerFromEntries(read[1..], acc[k := v]);
          LoadedKeepsGathered(read[1..], acc[k := v]);
          if r.Some? {
            forall k' | k' in acc ensures k' in r.value && r.value[k'] == acc[k'] {
              assert k' != k && acc[k := v][k'] == acc[k'];
            }
            forall i | 0 <= i < |read| ensures !read[i].Malformed? {
              if i > 0 {
                assert read[i] == read[1..][i - 1];
              }
            }
          }
        }
    }
  }

  /** A successful load maps the key of every entry line to that line's value. */
  lemma {:induction false} LoadedEntries(read: seq<IniLine>, acc: Layer)
    ensures var r := LayerFromEntries(read, acc);
      r.Some? ==> forall i :: 0 <= i < |read| && read[i].Entry? ==>
        read[i].key in r.value && r.value[read[i].key] == read[i].value
  {
    if read != [] {
      var r := LayerFromEntries(read, acc);
      match read[0]
      case Comment =>
        LoadedEntries(read[1..], acc);
        assert forall i :: 0 < i < |read| ==> read[i] == read[1..][i - 1];
      case Malformed =>
      case Entry(k, v) =>
        if k !in acc {
          assert r == LayerFromEntries(read[1..], acc[k := v]);
          LoadedEntries(read[1..], acc[k := v]);
          LoadedKeepsGathered(read[1..], acc[k := v]);
          if r.Some? {
            forall i | 0 <= i < |read| && read[i].Entry?
              ensures read[i].key in r.value && r.value[read[i].key] == read[i].value
            {
              if i > 0 {
                assert read[i] == read[1..][i - 1];
              } else {
                assert k in acc[k := v] && acc[k := v][k] == v;
              }
            }
          }
        }
    }
  }

  /** Some read line is the entry `k = v`. */
  ghost predicate EntryRead(read: seq<IniLine>, k: string, v: string)
  {
    exists i :: 0 <= i < |read| && read[i] == Entry(k, v)
  }

  lemma EntryInRest(read: seq<IniLine>, k: string, v: string)
    requires read != [] && EntryRead(read[1..], k, v)
    ensures EntryRead(read, k, v)
  {
    var i :| 0 <= i < |read[1..]| && read[1..][i] == Entry(k, v);
    assert read[i + 1] == Entry(k, v);
  }

  /** A successful load holds nothing but what was gathered before and the file's entries. */
  lemma {:induction false} LoadedKeysFromFile(read: seq<IniLine>, acc: Layer)
    ensures var r := LayerFromEntries(read, acc);
      r.Some? ==> forall k :: k in r.value ==> k in acc || EntryRead(read, k, r.value[k])
  {
    if read != [] {
      var r := LayerFromEntries(read, acc);
      match read[0]
      case Comment =>
        LoadedKeysFromFile(read[1..], acc);
        forall k | r.Some? && k in r.value && k !in acc
          ensures EntryRead(read, k, r.value[k])
        {
          EntryInRest(read, k, r.value[k]);
        }
      case Malformed =>
      case Entry(k0, v0) =>
        if k0 !in acc {
          assert r == LayerFromEntries(read[1..], acc[k0 := v0]);
          LoadedKeysFromFile(read[1..], acc[k0 := v0]);
          LoadedKeepsGathered(read[1..], acc[k0 := v0]);
          forall k | r.Some? && k in r.value && k !in acc
            ensures EntryRead(read, k, r.value[k])
          {
            if k == k0 {
              assert read[0] == Entry(k, r.value[k]);
            } else {
              EntryInRest(read, k, r.value[k]);
            }
          }
        }
    }
  }

  /**
   * LoadConfigurationSettingsFromFile: the lines are read one by one into
   * a fresh dictionary; a missing file, a line without `=` or a repeated
   * key gives no layer.
   */
  method LoadConfigurationSettingsFromFile(file: Option<seq<string>>) returns (layer: Option<Layer>)
    ensures layer == LoadedLayer(file)
  {
    if file.None? {
      return None;
    }
    var lines := file.value;
    ghost var read := ReadLines(lines);
    var settings: Layer := map[];
    var i := 0;
    while i < |lines|
      invariant 0 <= i <= |lines|
      invariant LayerFromEntries(read[i..], settings) == LayerFromEntries(read, map[])
    {
      assert read[i..][0] == ReadIniLine(lines[i]) && read[i..][1..] == read[i + 1..];
      match ReadIniLine(lines[i]) {
        case Comment =>
        case Malformed =>
          return None;
        case Entry(k, v) =>
          if k in settings {
            return None;
          }
          settings := settings[k := v];
      }
      i := i + 1;
    }
    assert read[i..] == [];
    return Some(settings);
  }

  /**
   * How LoadConfigurationSettingsFromFileAsUnsaved reads one line: a blank
   * line, a comment or a line without `=` is skipped, anything else gives
   * the trimmed first two pieces.
   */
  function UnsavedEntry(line: string): Option<(string, string)>
  {
    if Trim(line) != "" && !StartsWith(line, "#") then
      var fields := Split(line, '=');
      if |fields| > 1 then Some((Trim(fields[0]), Trim(fields[1]))) else None
    else None
  }

  /**
   * The unsaved loader takes exactly the lines the strict loader reads as
   * entries: its blank-line test adds nothing, as a blank line has no `=`.
   */
  lemma UnsavedEntryIsEntry(line: string)
    ensures UnsavedEntry(line).Some? <==> ReadIniLine(line).Entry?
    ensures UnsavedEntry(line).Some? ==>
      UnsavedEntry(line).value == (ReadIniLine(line).key, ReadIniLine(line).value)
  {
    if Trim(line) == "" {
      TrimIsInfix(line);
      assert forall j :: 0 <= j < |line| ==> IsWhiteSpace(line[j]);
      assert '=' !in line;
    }
  }

  /** Every line of a file, as the unsaved loader reads it. */
  function UnsavedEntries(lines: seq<string>): (entries: seq<Option<(string, string)>>)
    ensures |entries| == |lines|
  {
    seq(|lines|, i requires 0 <= i < |lines| => UnsavedEntry(lines[i]))
  }

  /** The value the last entry for `key` gives it, if any entry names it (later lines win). */
  function LastEntryFor(entries: seq<Option<(string, string)>>, key: string): Option<string>
  {
    if entries == [] then None
    else
      match entries[|entries| - 1]
      case Some((k, v)) =>
        if k == key then Some(v) else LastEntryFor(entries[..|entries| - 1], key)
      case None => LastEntryFor(entries[..|entries| - 1], key)
  }

  predicate HasEntry(entries: seq<Option<(string, string)>>)
  {
    exists i :: 0 <= i < |entries| && entries[i].Some?
  }

  /** Each entry saved in turn into layer 1. */
  function SaveEntries(s: Store, entries: seq<Option<(string, string)>>): (r: Store)
    requires |s.layers| >= 2
    ensures |r.layers| == |s.layers|
  {
    if entries == [] then s
    else
      var t := SaveEntries(s, entries[..|entries| - 1]);
      match entries[|entries| - 1]
      case Some((k, v)) => Save(t, k, v, 1)
      case None => t
  }

  /**
   * The unsaved load: with a single layer the first save fails and the load
   * stops there, before any change.
   */
  function LoadUnsaved(s: Store, lines: seq<string>): Store
  {
    if |s.layers| < 2 then s else SaveEntries(s, UnsavedEntries(lines))
  }

  /**
   * Saving entries changes only layer 1, and leaves the store uncommitted
   * when there was an entry.
   */
  lemma {:induction false} SavedEntriesShape(s: Store, entries: seq<Option<(string, string)>>)
    requires |s.layers| >= 2
    ensures var r := SaveEntries(s, entries);
      && (forall j :: 0 <= j < |s.layers| && j != 1 ==> r.layers[j] == s.layers[j])
      && r.uncommitted == (s.uncommitted || HasEntry(entries))
  {
    if entries != [] {
      var front := entries[..|entries| - 1];
      SavedEntriesShape(s, front);
      assert forall i :: 0 <= i < |front| ==> front[i] == entries[i];
      assert HasEntry(entries) <==> HasEntry(front) || entries[|entries| - 1].Some?;
    }
  }

  /**
   * After saving entries, each key of layer 1 holds the value of its last
   * entry, and keys no entry names are untouched.
   */
  lemma {:induction false} SavedEntriesLastWins(s: Store, entries: seq<Option<(string, string)>>, key: string)
    requires |s.layers| >= 2
    ensures var r := SaveEntries(s, entries);
      && (LastEntryFor(entries, key).None? ==>
            (key in r.layers[1] <==> key in s.layers[1])
            && (key in s.layers[1] ==> r.layers[1][key] == s.layers[1][key]))
      && (LastEntryFor(entries, key).Some? ==>
            key in r.layers[1] && r.layers[1][key] == LastEntryFor(entries, key).value)
  {
    if entries != [] {
      var front := entries[..|entries| - 1];
      SavedEntriesLastWins(s, front, key);
      var t := SaveEntries(s, front);
      match entries[|entries| - 1]
      case Some((k, v)) =>
        assert SaveEntries(s, entries).layers[1] == t.layers[1][k := v];
      case None =>
    }
  }

  /** With no entry at all, the unsaved load changes nothing. */
  lemma {:induction false} UnsavedWithoutEntries(s: Store, entries: seq<Option<(string, string)>>)
    requires |s.layers| >= 2 && !HasEntry(entries)
    ensures SaveEntries(s, entries) == s
  {
    if entries != [] {
      var front := entries[..|entries| - 1];
      assert entries[|entries| - 1].None?;
      assert forall i :: 0 <= i < |front| ==> front[i] == entries[i];
      UnsavedWithoutEntries(s, front);
    }
  }

  /** The store a running program reads and writes. */
  class ActiveSliceSettings {
    var layers: seq<Layer>
    var hasUncommittedChanges: bool
    var settingsHashCode: int
    var notices: seq<Notice>

    ghost function Current(): Store
      reads this
    {
      Store(layers, hasUncommittedChanges, settingsHashCode, notices)
    }

    constructor(layers: seq<Layer>)
      ensures Current() == Store(layers, false, 0, [])
    {
      this.layers := layers;
      hasUncommittedChanges := false;
      settingsHashCode := 0;
      notices := [];
    }

    /** GetActiveValue: the layers are searched from the top down. */
    method GetActiveValue(key: string) returns (value: string)
      ensures value == ActiveValue(layers, key)
    {
      var i := |layers|;
      while i > 0
        invariant 0 <= i <= |layers|
        invariant forall j :: i <= j < |layers| ==> key !in layers[j]
      {
        i := i - 1;
        if key in layers[i] {
          assert TopLayerWith(layers, key, i);
          return layers[i][key];
        }
      }
      return Unknown;
    }

    /**
     * GetMaterialValue: the extruder's material layer, when one is set and
     * defines the key; otherwise the layers from quality (index 2) down to
     * the defaults, top-most first; otherwise "Unknown".
     */
    method GetMaterialValue(key: string, material: Option<Layer>) returns (value: string)
      ensures material.Some? && key in material.value ==> value == material.value[key]
      ensures !(material.Some? && key in material.value) ==>
        value == ActiveValue(layers[..if |layers| < 3 then |layers| else 3], key)
    {
      if material.Some? && key in material.value {
        return material.value[key];
      }
      var searched := layers[..if |layers| < 3 then |layers| else 3];
      var start := if |layers| - 1 < 2 then |layers| - 1 else 2;
      var i := start;
      while i >= 0
        invariant -1 <= i <= start
        invariant forall j :: i < j < |searched| ==> key !in searched[j]
      {
        if key in layers[i] {
          assert searched[i] == layers[i];
          assert TopLayerWith(searched, key, i);
          return layers[i][key];
        }
        i := i - 1;
      }
      return Unknown;
    }

    /** The HasUncommittedChanges setter. */
    method SetHasUncommittedChanges(value: bool)
      modifies this
      ensures Current() == SetUncommitted(old(Current()), value)
    {
      if hasUncommittedChanges != value {
        hasUncommittedChanges := value;
        notices := notices + [CommitStatusChanged];
      }
    }

    /** OnSettingsChanged: the hash is reset and SettingsChanged raised. */
    method OnSettingsChanged()
      modifies this
      ensures Current() == old(Current()).(hashCode := 0, notices := old(notices) + [SettingsChanged])
    {
      settingsHashCode := 0;
      notices := notices + [SettingsChanged];
    }

    /**
     * SaveValue: whether the key was there with another value or not, the
     * layer ends up mapping it to the new value.
     */
    method SaveValue(key: string, value: string, layerIndex: nat)
      requires layerIndex < |layers|
      modifies this
      ensures Current() == Save(old(Current()), key, value, layerIndex)
    {
      layers := layers[layerIndex := layers[layerIndex][key := value]];
      OnSettingsChanged();
      SetHasUncommittedChanges(true);
    }

    /** CommitChanges: the per-layer database commits are not modelled; the flag goes down. */
    method CommitChanges()
      modifies this
      ensures Current() == Commit(old(Current()))
    {
      SetHasUncommittedChanges(false);
    }

    /** LoadConfigurationSettingsFromFileAsUnsaved: every entry line saved into layer 1. */
    method LoadConfigurationSettingsFromFileAsUnsaved(file: Option<seq<string>>)
      modifies this
      ensures file.None? ==> Current() == old(Current())
      ensures file.Some? ==> Current() == LoadUnsaved(old(Current()), file.value)
    {
      if file.None? {
        return;
      }
      var lines := file.value;
      if |layers| < 2 {
        return;
      }
      ghost var entries := UnsavedEntries(lines);
      var i := 0;
      while i < |lines|
        invariant 0 <= i <= |lines| && |layers| >= 2
        invariant Current() == SaveEntries(old(Current()), entries[..i])
      {
        assert entries[..i + 1][..i] == entries[..i] && entries[i] == UnsavedEntry(lines[i]);
        match UnsavedEntry(lines[i]) {
          case Some((k, v)) =>
            SaveValue(k, v, 1);
          case None =>
        }
        i := i + 1;
      }
      assert entries[..i] == entries;
    }
  }
}

/** The save store: at most one save, identified by its slot and variant,
    is loaded at a time; its data is a key/value map kept in memory and
    written to that slot's file. The file system is an abstract map from
    path to file content. Packing is abstract too, except for its length,
    which decides what a write leaves in the file: a file holds nothing
    (just created), exactly one packed value (the map, or nil when nothing
    was loaded), a packed value followed by older bytes it did not cover,
    or bytes that do not unpack. Slot and variant are modelled by their
    string forms (`str(slot)`, `str(variant)`). */
module Saves {
  import opened Common

  datatype SaveFile<V> =
    | EmptyFile
    | Packed(data: Option<map<string, V>>)
    | Trailing(data: Option<map<string, V>>, length: nat)
    | Garbage(length: nat)

  /** The number of bytes `msgpack.packb` produces for a value. */
  type PackedSize<!V> = Option<map<string, V>> -> nat

  function FileLength<V>(f: SaveFile<V>, size: PackedSize<V>): nat
  {
    match f
    case EmptyFile => 0
    case Packed(d) => size(d)
    case Trailing(_, n) => n
    case Garbage(n) => n
  }

  /** `msgpack.unpackb` of the file's bytes: the value when the file is
      exactly one packed value; None where it raises (no bytes, bytes
      that do not unpack, or extra bytes after the value). */
  function Unpacked<V>(f: SaveFile<V>): Option<Option<map<string, V>>>
  {
    if f.Packed? then Some(f.data) else None
  }

  /** Writing packed `d` at the start of a file opened with "r+b", which
      does not truncate: a shorter packing leaves the old file's tail. */
  function WriteOver<V>(f: SaveFile<V>, d: Option<map<string, V>>, size: PackedSize<V>): SaveFile<V>
  {
    if size(d) >= FileLength(f, size) then Packed(d) else Trailing(d, FileLength(f, size))
  }

  /** The written file reads back as `d` exactly when the packing covers
      the old content; otherwise the old tail follows the value and the
      unpacking raises. The file never shrinks. */
  lemma WriteOverReadsBack<V>(f: SaveFile<V>, d: Option<map<string, V>>, size: PackedSize<V>)
    ensures Unpacked(WriteOver(f, d, size)) == Some(d) <==> size(d) >= FileLength(f, size)
    ensures size(d) < FileLength(f, size) ==> Unpacked(WriteOver(f, d, size)) == None
    ensures FileLength(WriteOver(f, d, size), size) == Max(size(d), FileLength(f, size))
  {
  }

  /** A fresh, empty file always reads back what was written to it. */
  lemma WriteOverEmptyReadsBack<V>(d: Option<map<string, V>>, size: PackedSize<V>)
    ensures WriteOver(EmptyFile, d, size) == Packed(d)
  {
  }

  /** A new save whose data packs shorter than the previously saved data
      cannot be loaded back: with key `"a"` set to `"abcdefgh"` and saved
      (12 bytes), then set to `1` and saved again (4 bytes), eight stale
      bytes follow the new map. */
  lemma ShorterSaveBreaksLoad<V>(first: Option<map<string, V>>, second: Option<map<string, V>>, size: PackedSize<V>)
    requires size(second) < size(first)
    ensures WriteOver(EmptyFile, first, size) == Packed(first)
    ensures Unpacked(WriteOver(WriteOver(EmptyFile, first, size), second, size)) == None
  {
    WriteOverReadsBack(Packed(first), second, size);
  }

  /** The write the save evidently intends: the file replaced by the
      packed value, as opening it with "wb" would. */
  function WriteTruncating<V>(f: SaveFile<V>, d: Option<map<string, V>>): SaveFile<V>
  {
    Packed(d)
  }

  /** With a truncating write every save reads back, whatever the file
      held before, and the file has exactly the packing's length. */
  lemma WriteTruncatingReadsBack<V>(f: SaveFile<V>, d: Option<map<string, V>>, size: PackedSize<V>)
    ensures Unpacked(WriteTruncating(f, d)) == Some(d)
    ensures FileLength(WriteTruncating(f, d), size) == size(d)
  {
  }

  const SAVE_DIRECTORY := "save"

  /** Python's `str` of an optional string: None prints as "None". */
  function Str(s: Option<string>): string
  {
    match s
    case None => "None"
    case Some(v) => v
  }

  /** `os.path.join("save", "slot" + variant + "-" + slot + ".sav")`. */
  function SavePath(slot: string, variant: string): string
  {
    SAVE_DIRECTORY + "/slot" + variant + "-" + slot + ".sav"
  }

  /** Reading a save path back: the variant is everything up to the first
      '-' after "save/slot", the slot the rest before ".sav". */
  function ParseSavePath(p: string): Option<(string, string)>
  {
    var prefix := SAVE_DIRECTORY + "/slot";
    if |p| < |prefix| + 5 || p[..|prefix|] != prefix || p[|p| - 4..] != ".sav" then None
    else
      var body := p[|prefix|..|p| - 4];
      var k := FirstDash(body);
      if k == |body| then None else Some((body[k + 1..], body[..k]))
  }

  function FirstDash(s: string): (k: nat)
    ensures k <= |s|
    ensures forall i :: 0 <= i < k ==> s[i] != '-'
    ensures k < |s| ==> s[k] == '-'
  {
    if s == [] then 0 else if s[0] == '-' then 0 else 1 + FirstDash(s[1..])
  }

  lemma {:induction false} FirstDashAfter(a: string, b: string)
    requires '-' !in a
    ensures FirstDash(a + "-" + b) == |a|
  {
    if a != [] {
      assert (a + "-" + b)[1..] == a[1..] + "-" + b;
      FirstDashAfter(a[1..], b);
    }
  }

  /** A variant without '-' is recovered from its path, and so is the
      slot: distinct such (slot, variant) pairs never share a file. */
  lemma SavePathRoundTrip(slot: string, variant: string)
    requires '-' !in variant
    ensures ParseSavePath(SavePath(slot, variant)) == Some((slot, variant))
  {
    var p := SavePath(slot, variant);
    var prefix := SAVE_DIRECTORY + "/slot";
    assert p == prefix + (variant + "-" + slot) + ".sav";
    assert p[..|prefix|] == prefix;
    assert p[|p| - 4..] == ".sav";
    var body := p[|prefix|..|p| - 4];
    assert body == variant + "-" + slot;
    FirstDashAfter(variant, slot);
    assert body[..|variant|] == variant;
    assert body[|variant| + 1..] == slot;
  }

  lemma SavePathInjective(s1: string, v1: string, s2: string, v2: string)
    requires '-' !in v1 && '-' !in v2
    requires SavePath(s1, v1) == SavePath(s2, v2)
    ensures s1 == s2 && v1 == v2
  {
    SavePathRoundTrip(s1, v1);
    SavePathRoundTrip(s2, v2);
  }

  /** A '-' in the variant makes two saves share a file. */
  lemma DashInVariantCollides()
    ensures SavePath("b-1", "a") == SavePath("1", "a-b")
  {
  }

  /** The store's state, kept in class-level fields in the program. */
  class SaveManager<V> {
    var currentSlot: Option<string>
    var currentVariant: Option<string>
    var saveData: Option<map<string, V>>
    var disk: map<string, SaveFile<V>>
    /** The length of `msgpack.packb` of each value. */
    const size: PackedSize<V>

    ghost predicate Valid()
      reads this
    {
      (currentSlot.Some? <==> currentVariant.Some?)
      && (saveData.Some? ==> currentSlot.Some?)
    }

    /** The initial state: nothing loaded. */
    constructor (disk: map<string, SaveFile<V>>, size: PackedSize<V>)
      ensures currentSlot == None && currentVariant == None && saveData == None
      ensures this.disk == disk && this.size == size
      ensures Valid()
    {
      this.size := size;
      currentSlot := None;
      currentVariant := None;
      saveData := None;
      this.disk := disk;
    }

    /** None when no save is loaded or the key is absent. */
    function GetCurrentSaveValue(key: string): (r: Option<V>)
      reads this
      ensures r.None? <==> saveData.None? || key !in saveData.value
      ensures r.Some? ==> r.value == saveData.value[key]
    {
      if saveData.None? || key !in saveData.value then None else Some(saveData.value[key])
    }

    method SetCurrentSaveValue(key: string, value: V) returns (ok: bool)
      modifies this
      ensures ok <==> old(saveData).Some?
      ensures ok ==> saveData == Some(old(saveData).value[key := value])
      ensures !ok ==> saveData == old(saveData)
      ensures currentSlot == old(currentSlot) && currentVariant == old(currentVariant) && disk == old(disk)
    {
      if saveData.None? {
        return false;
      }
      saveData := Some(saveData.value[key := value]);
      ok := true;
    }

    function GetCurrentSaveSlot(): Option<string>
      reads this
    {
      currentSlot
    }

    function GetCurrentVariant(): Option<string>
      reads this
    {
      currentVariant
    }

    /** Writes the current data, nil when nothing is loaded, at the start
        of the current slot's file without truncating it; fails when that
        file does not exist. */
    method Save() returns (ok: bool)
      modifies this`disk
      ensures var p := SavePath(Str(currentSlot), Str(currentVariant));
        (ok <==> p in old(disk))
        && disk == if ok then old(disk)[p := WriteOver(old(disk)[p], saveData, size)] else old(disk)
    {
      var p := SavePath(Str(currentSlot), Str(currentVariant));
      if p !in disk {
        return false;
      }
      disk := disk[p := WriteOver(disk[p], saveData, size)];
      ok := true;
    }

    function SaveExists(slot: string, variant: string): bool
      reads this
    {
      SavePath(slot, variant) in disk
    }

    method UnloadCurrentSave()
      modifies this
      ensures currentSlot == None && currentVariant == None && saveData == None
      ensures disk == old(disk)
      ensures Valid()
    {
      currentSlot := None;
      saveData := None;
      currentVariant := None;
    }

    /** Unloads, then removes the slot's file if there is one. */
    method DeleteSave(slot: string, variant: string) returns (ok: bool)
      modifies this
      ensures ok
      ensures currentSlot == None && currentVariant == None && saveData == None
      ensures disk == old(disk) - {SavePath(slot, variant)}
      ensures Valid()
    {
      UnloadCurrentSave();
      var p := SavePath(slot, variant);
      if p in disk {
        disk := disk - {p};
      }
      ok := true;
    }

    /** Unloads, replaces the slot's file by a fresh one holding an empty
        map, and loads it. */
    method CreateNewSave(slot: string, variant: string) returns (ok: bool)
      modifies this
      ensures ok
      ensures currentSlot == Some(slot) && currentVariant == Some(variant) && saveData == Some(map[])
      ensures disk == old(disk)[SavePath(slot, variant) := Packed(Some(map[]))]
      ensures Valid()
    {
      UnloadCurrentSave();
      var _ := DeleteSave(slot, variant);
      var p := SavePath(slot, variant);
      disk := disk[p := EmptyFile];
      saveData := Some(map[]);
      currentSlot := Some(slot);
      currentVariant := Some(variant);
      WriteOverEmptyReadsBack(saveData, size);
      var saved := Save();
      assert saved;
      ok := true;
      assert disk == old(disk)[p := Packed(Some(map[]))];
    }

    /** Unloads, then loads the slot's file: false with nothing loaded when
        the file is missing or its bytes do not unpack to one value. */
    method Load(slot: string, variant: string) returns (ok: bool)
      modifies this
      ensures var p := SavePath(slot, variant);
        ok <==> p in disk && Unpacked(disk[p]).Some?
      ensures ok ==> (currentSlot == Some(slot) && currentVariant == Some(variant)
                      && saveData == Unpacked(disk[SavePath(slot, variant)]).value)
      ensures !ok ==> currentSlot == None && currentVariant == None && saveData == None
      ensures disk == old(disk)
      ensures Valid()
    {
      UnloadCurrentSave();
      var p := SavePath(slot, variant);
      if p !in disk {
        return false;
      }
      var data := disk[p];
      currentSlot := Some(slot);
      currentVariant := Some(variant);
      var unpacked := Unpacked(data);
      if unpacked.None? {
        UnloadCurrentSave();
        return false;
      }
      saveData := unpacked.value;
      ok := true;
    }
  }
}

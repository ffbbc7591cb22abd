/**
  The parts of a mapped, non-relocated PE image that the loader inspects
  (obse64_loader/IdentifyEXE.cpp, GetImageSection and HasImportedLibrary):
  the section table, the import entry of the data directory and the file's bytes.
  Every read of the bytes is bounds-checked; a read past the end of the file
  yields None where the source would read out of bounds.
*/
module PeImage {
  import opened Common

  /** One IMAGE_SECTION_HEADER: its name as `strcmp` sees it, and its placement. */
  datatype Section = Section(name: string, virtualAddress: u32, sizeOfRawData: u32, pointerToRawData: u32)

  /** The IMAGE_DIRECTORY_ENTRY_IMPORT entry of the optional header. */
  datatype DataDirectory = DataDirectory(virtualAddress: u32, size: u32)

  datatype Image = Image(sections: seq<Section>, importDir: DataDirectory, bytes: seq<byte>)

  /** The two IMAGE_IMPORT_DESCRIPTOR fields the walk reads. */
  datatype ImportDescriptor = ImportDescriptor(characteristics: u32, name: u32)

  const IMPORT_DESCRIPTOR_SIZE: nat := 20

  // ---------------------------------------------------------------- sections

  predicate HasSection(img: Image, name: string)
  {
    exists i | 0 <= i < |img.sections| :: img.sections[i].name == name
  }

  /** GetImageSection: the index of the first section named `name`, or None (NULL). */
  method GetImageSection(img: Image, name: string) returns (r: Option<nat>)
    ensures r.Some? ==> r.value < |img.sections| && img.sections[r.value].name == name
    ensures r.Some? ==> forall j | 0 <= j < r.value :: img.sections[j].name != name
    ensures r.None? <==> !HasSection(img, name)
  {
    for i := 0 to |img.sections|
      invariant forall j | 0 <= j < i :: img.sections[j].name != name
    {
      if img.sections[i].name == name {
        return Some(i);
      }
    }
    return None;
  }

  // ---------------------------------------------------------------- RVA -> file offset

  /** `VA <= rva < VA + SizeOfRawData`, where the sum is a 32-bit DWORD addition. */
  predicate InSection(s: Section, rva: u32)
  {
    s.virtualAddress <= rva < AddU32(s.virtualAddress, s.sizeOfRawData)
  }

  /** The first section, by index, whose range contains `rva`. */
  function SectionFor(sections: seq<Section>, rva: u32): (r: Option<nat>)
    ensures r.Some? ==> r.value < |sections| && InSection(sections[r.value], rva)
    ensures r.Some? ==> forall j | 0 <= j < r.value :: !InSection(sections[j], rva)
    ensures r.None? ==> forall j | 0 <= j < |sections| :: !InSection(sections[j], rva)
  {
    if |sections| == 0 then None
    else if InSection(sections[0], rva) then Some(0)
    else match SectionFor(sections[1..], rva)
      case None => None
      case Some(k) => Some(k + 1)
  }

  /** The file offset of `rva`: `rva - VA + PointerToRawData` of the first section containing it. */
  function ResolveRva(sections: seq<Section>, rva: u32): Option<nat>
  {
    match SectionFor(sections, rva)
    case None => None
    case Some(i) => Some(rva - sections[i].virtualAddress + sections[i].pointerToRawData)
  }

  /** LookupRVA: the loop over the section table inside HasImportedLibrary. */
  method LookupRva(img: Image, rva: u32) returns (r: Option<nat>)
    ensures r == ResolveRva(img.sections, rva)
  {
    for i := 0 to |img.sections|
      invariant forall j | 0 <= j < i :: !InSection(img.sections[j], rva)
    {
      var section := img.sections[i];
      if rva >= section.virtualAddress && rva < AddU32(section.virtualAddress, section.sizeOfRawData) {
        FirstSectionIs(img.sections, rva, i);
        return Some(rva - section.virtualAddress + section.pointerToRawData);
      }
    }
    NoSectionFor(img.sections, rva);
    return None;
  }

  lemma FirstSectionIs(sections: seq<Section>, rva: u32, i: nat)
    requires i < |sections| && InSection(sections[i], rva)
    requires forall j | 0 <= j < i :: !InSection(sections[j], rva)
    ensures SectionFor(sections, rva) == Some(i)
  {
  }

  lemma NoSectionFor(sections: seq<Section>, rva: u32)
    requires forall j | 0 <= j < |sections| :: !InSection(sections[j], rva)
    ensures SectionFor(sections, rva) == None
  {
  }

  // ---------------------------------------------------------------- bytes

  /** A little-endian DWORD at `off`, if the file holds four bytes there. */
  function ReadU32(bytes: seq<byte>, off: nat): (r: Option<u32>)
    ensures r.Some? <==> off + 4 <= |bytes|
  {
    if off + 4 <= |bytes|
    then Some(bytes[off] as int + 0x100 * bytes[off + 1] as int + 0x1_0000 * bytes[off + 2] as int + 0x100_0000 * bytes[off + 3] as int)
    else None
  }

  /** The import descriptor at `off`, if the file holds all of its 20 bytes. */
  function ReadDescriptor(bytes: seq<byte>, off: nat): (r: Option<ImportDescriptor>)
    ensures r.Some? <==> off + IMPORT_DESCRIPTOR_SIZE <= |bytes|
  {
    if off + IMPORT_DESCRIPTOR_SIZE <= |bytes|
    then Some(ImportDescriptor(ReadU32(bytes, off).value, ReadU32(bytes, off + 12).value))
    else None
  }

  /** The NUL-terminated string at `off`, without its terminator; None if the file ends first. */
  function CStringAt(bytes: seq<byte>, off: nat): (r: Option<seq<byte>>)
    ensures r.Some? ==> 0 !in r.value
    decreases |bytes| - off
  {
    if off >= |bytes| then None
    else if bytes[off] == 0 then Some([])
    else match CStringAt(bytes, off + 1)
      case None => None
      case Some(t) => Some([bytes[off]] + t)
  }

  // ---------------------------------------------------------------- imports

  /**
    The Name fields of the import descriptors starting at `off`, up to the first
    descriptor whose Characteristics is zero (or the end of the file).
  */
  function ImportNames(bytes: seq<byte>, off: nat): seq<u32>
    decreases |bytes| - off
  {
    match ReadDescriptor(bytes, off)
    case None => []
    case Some(d) =>
      if d.characteristics == 0 then [] else [d.name] + ImportNames(bytes, off + IMPORT_DESCRIPTOR_SIZE)
  }

  /** The descriptor's Name resolves to a string equal to `name`, ignoring ASCII case. */
  predicate NameMatches(img: Image, nameRva: u32, name: string)
  {
    match ResolveRva(img.sections, nameRva)
    case None => false
    case Some(o) =>
      match CStringAt(img.bytes, o)
      case None => false
      case Some(s) => EqualsIgnoreCase(s, Codes(name))
  }

  /** The image's import table lists a library called `name`. */
  predicate ImportsLibrary(img: Image, name: string)
  {
    img.importDir.size != 0 && img.importDir.virtualAddress != 0 &&
    match ResolveRva(img.sections, img.importDir.virtualAddress)
    case None => false
    case Some(t) =>
      var names := ImportNames(img.bytes, t);
      exists k | 0 <= k < |names| :: NameMatches(img, names[k], name)
  }

  /** HasImportedLibrary: walk the import descriptors, `++importTable` at a time. */
  method HasImportedLibrary(img: Image, name: string) returns (found: bool)
    ensures found == ImportsLibrary(img, name)
    ensures img.importDir.size == 0 || img.importDir.virtualAddress == 0 ==> !found
    ensures ResolveRva(img.sections, img.importDir.virtualAddress).None? ==> !found
  {
    if img.importDir.size == 0 || img.importDir.virtualAddress == 0 {
      return false;
    }
    var table := LookupRva(img, img.importDir.virtualAddress);
    if table.None? {
      return false;
    }
    var off := table.value;
    ghost var seen: seq<u32> := [];
    while true
      invariant ImportNames(img.bytes, table.value) == seen + ImportNames(img.bytes, off)
      invariant forall k | 0 <= k < |seen| :: !NameMatches(img, seen[k], name)
      decreases |img.bytes| - off
    {
      var d := ReadDescriptor(img.bytes, off);
      if d.None? || d.value.characteristics == 0 {
        break;
      }
      var dllName := LookupRva(img, d.value.name);
      if dllName.Some? {
        var s := CStringAt(img.bytes, dllName.value);
        if s.Some? && EqualsIgnoreCase(s.value, Codes(name)) {
          assert ImportNames(img.bytes, off)[0] == d.value.name;
          assert (seen + ImportNames(img.bytes, off))[|seen|] == d.value.name;
          return true;
        }
      }
      seen := seen + [d.value.name];
      off := off + IMPORT_DESCRIPTOR_SIZE;
    }
    return false;
  }
}

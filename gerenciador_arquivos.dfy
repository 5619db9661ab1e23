/**
 * The file import list: the duplicate test, which files of a selection start
 * reading, the list of files whose reads completed (with the confirm
 * button's visibility), removal from it, the name/extension helpers and the
 * choice of layer builder by extension. A File is a value with an identity,
 * since indexOf compares references.
 */
module GerenciadorArquivos {
  import opened Common
  import opened Text
  import opened Seqs

  /** A File: its object identity, name and size in bytes. */
  datatype Arquivo = Arquivo(id: nat, name: string, size: nat)

  /** isDuplicate: some uploaded file has the same name and size. */
  predicate IsDuplicate(newFile: Arquivo, uploadedFiles: seq<Arquivo>)
  {
    exists i :: 0 <= i < |uploadedFiles| && uploadedFiles[i].name == newFile.name && uploadedFiles[i].size == newFile.size
  }

  /** The files of a selection whose reads importFiles starts. */
  function Started(uploadedFiles: seq<Arquivo>, files: Option<seq<Arquivo>>, skipDuplicates: bool): (r: seq<Arquivo>)
    ensures files.None? || files.value == [] ==> r == []
    ensures files.Some? ==> forall f :: f in r <==> f in files.value && !(skipDuplicates && IsDuplicate(f, uploadedFiles))
  {
    if files.None? || files.value == [] then []
    else
      var keep := (f: Arquivo) => !(skipDuplicates && IsDuplicate(f, uploadedFiles));
      var r := Filter(files.value, keep);
      forall f | f in files.value && keep(f) ensures f in r {
        var i :| 0 <= i < |files.value| && files.value[i] == f;
      }
      r
  }

  /**
   * The test is against files whose reads have completed, so two equal files
   * chosen in the same selection both start reading.
   */
  lemma {:induction false} SameSelectionDuplicates(uploadedFiles: seq<Arquivo>, a: Arquivo, b: Arquivo)
    requires !IsDuplicate(a, uploadedFiles) && a.name == b.name && a.size == b.size
    ensures Started(uploadedFiles, Some([a, b]), true) == [a, b]
  {
    assert !IsDuplicate(b, uploadedFiles);
    assert [a, b][..1] == [a] && [a][..0] == [];
  }

  /** The list after removing the first occurrence of x, if any. */
  function Removed(s: seq<Arquivo>, x: Arquivo): seq<Arquivo>
  {
    var i := IndexOf(s, x);
    if i == -1 then s else s[..i] + s[i + 1..]
  }

  /** Removal takes out exactly one copy of a present file and leaves an absent one's list alone. */
  lemma {:induction false} RemovedMeaning(s: seq<Arquivo>, x: Arquivo)
    ensures x !in s ==> Removed(s, x) == s
    ensures x in s ==> multiset(Removed(s, x)) + multiset{x} == multiset(s) && |Removed(s, x)| == |s| - 1
    ensures x in s ==> forall y :: y != x ==> multiset(Removed(s, x))[y] == multiset(s)[y]
  {
    if x in s {
      var i := IndexOf(s, x);
      assert s == s[..i] + [x] + s[i + 1..];
      assert multiset(s) == multiset(s[..i]) + multiset{x} + multiset(s[i + 1..]);
    }
  }

  /** What remains in front of the removed copy stays in order: the earlier files and the later ones. */
  lemma {:induction false} RemovedOrder(s: seq<Arquivo>, x: Arquivo)
    requires x in s
    ensures var i := IndexOf(s, x); Removed(s, x) == s[..i] + s[i + 1..] && x !in s[..i]
  {
  }

  /** uploadedFiles and the confirm button's visibility. */
  class Importacao {
    var uploadedFiles: seq<Arquivo>
    var confirmVisible: bool

    constructor()
      ensures uploadedFiles == [] && !confirmVisible
    {
      uploadedFiles := [];
      confirmVisible := false;
    }

    /** importFiles: the files whose reads start; nothing joins the list until its read completes. */
    method ImportFiles(files: Option<seq<Arquivo>>, skipDuplicates: bool) returns (reading: seq<Arquivo>)
      ensures reading == Started(uploadedFiles, files, skipDuplicates)
    {
      reading := [];
      if files.None? || |files.value| == 0 {
        return;
      }
      var fs, up := files.value, uploadedFiles;
      var keep := (f: Arquivo) => !(skipDuplicates && IsDuplicate(f, up));
      var i := 0;
      while i < |fs|
        invariant 0 <= i <= |fs|
        invariant reading == Filter(fs[..i], keep)
      {
        assert fs[..i + 1][..i] == fs[..i];
        if !(skipDuplicates && IsDuplicate(fs[i], up)) {
          reading := reading + [fs[i]];
        }
        i := i + 1;
      }
      assert fs[..|fs|] == fs;
    }

    /** reader.onload: the file joins the list and the confirm button shows. */
    method OnLoad(file: Arquivo)
      modifies this
      ensures uploadedFiles == old(uploadedFiles) + [file] && confirmVisible
    {
      uploadedFiles := uploadedFiles + [file];
      confirmVisible := true;
    }

    /** removeUploadedFile: splice out the first occurrence; hide the button once the list is empty. */
    method RemoveUploadedFile(file: Arquivo)
      modifies this
      ensures uploadedFiles == Removed(old(uploadedFiles), file)
      ensures confirmVisible == (old(confirmVisible) && uploadedFiles != [])
    {
      var fileIndex := IndexOf(uploadedFiles, file);
      if fileIndex != -1 {
        uploadedFiles := uploadedFiles[..fileIndex] + uploadedFiles[fileIndex + 1..];
      }
      if |uploadedFiles| == 0 {
        confirmVisible := false;
      }
    }
  }

  /** getFileNameParts: `substring(0, lastDotIndex)` is empty without a dot, since a negative end counts as 0. */
  datatype NameParts = NameParts(name: string, extension: string)

  function GetFileNameParts(fileName: string): (p: NameParts)
    ensures LastIndexOf(fileName, '.') == -1 ==> p == NameParts("", ToLower(fileName))
  {
    var lastDotIndex := LastIndexOf(fileName, '.');
    NameParts(if lastDotIndex >= 0 then fileName[..lastDotIndex] else "", ToLower(fileName[lastDotIndex + 1..]))
  }

  /** A name with a dot is its base before the last dot and its extension after it, lower-cased. */
  lemma {:induction false} FileNamePartsSplit(base: string, ext: string)
    requires '.' !in ext
    ensures GetFileNameParts(base + "." + ext) == NameParts(base, ToLower(ext))
  {
    var s := base + "." + ext;
    assert s[|base|] == '.';
    forall i | |base| < i < |s| ensures s[i] != '.' {
      assert s[i] == ext[i - |base| - 1];
    }
    LastIndexOfUnique(s, '.', |base|);
    assert s[..|base|] == base && s[|base| + 1..] == ext;
  }

  /** extractFileExtension: `split('.').pop()`, lower-cased. */
  function ExtractFileExtension(fileName: string): string
  {
    var parts := Split(fileName, '.');
    ToLower(parts[|parts| - 1])
  }

  /** Both helpers agree on the extension, with or without a dot in the name. */
  lemma {:induction false} ExtensionsAgree(fileName: string)
    ensures ExtractFileExtension(fileName) == GetFileNameParts(fileName).extension
  {
    SplitLast(fileName, '.');
  }

  /** The layer each builder makes: L.geoJSON, omnivore's KML parser, L.GPX. */
  datatype Camada = GeoJson | Kml | Gpx

  /** What createLayerFromContent throws: JSON.parse's or L.geoJSON's error, an ill-formed KML, an unsupported format. */
  datatype Erro = JsonInvalido | KmlInvalido | NaoSuportado(extension: string)

  /**
   * createLayerFromContent: jsonParses says whether JSON.parse and then
   * L.geoJSON both accept the text (L.geoJSON throws on a parsed value that
   * is not GeoJSON, such as `{}`), xmlHasParserError whether DOMParser's
   * result holds a parsererror.
   */
  function CreateLayerFromContent(content: string, extension: string, jsonParses: string -> bool, xmlHasParserError: string -> bool): (r: Result<Camada, Erro>)
    ensures r.Success? ==> extension in {"json", "geojson", "kml", "gpx"}
    ensures extension !in {"json", "geojson", "kml", "gpx"} ==> r == Failure(NaoSuportado(extension))
    ensures r == Failure(KmlInvalido) <==> extension == "kml" && xmlHasParserError(content)
    ensures r == Failure(JsonInvalido) <==> extension in {"json", "geojson"} && !jsonParses(content)
    ensures extension == "gpx" ==> r == Success(Gpx)
  {
    if extension == "json" || extension == "geojson" then
      if jsonParses(content) then Success(GeoJson) else Failure(JsonInvalido)
    else if extension == "kml" then
      if xmlHasParserError(content) then Failure(KmlInvalido) else Success(Kml)
    else if extension == "gpx" then Success(Gpx)
    else Failure(NaoSuportado(extension))
  }

  /** renderFileOnMap's reader.onload: the builder chosen by the name's extension. */
  function RenderFile(file: Arquivo, content: string, jsonParses: string -> bool, xmlHasParserError: string -> bool): Result<Camada, Erro>
  {
    CreateLayerFromContent(content, ExtractFileExtension(file.name), jsonParses, xmlHasParserError)
  }

  /** The extension is matched after lower-casing, so "MAPA.KML" is read as KML. */
  lemma {:induction false} RenderFileCaseInsensitive(base: string, ext: string, id: nat, size: nat, content: string, jsonParses: string -> bool, xmlHasParserError: string -> bool)
    requires '.' !in ext
    ensures RenderFile(Arquivo(id, base + "." + ext, size), content, jsonParses, xmlHasParserError)
      == CreateLayerFromContent(content, ToLower(ext), jsonParses, xmlHasParserError)
  {
    ExtensionsAgree(base + "." + ext);
    FileNamePartsSplit(base, ext);
  }
}

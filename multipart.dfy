/** The result of formidable's multipart parsing, as both upload endpoints
    consume it: a map from form field name to the file (or files) sent under
    that name. The parser itself is not modelled; its outcome is an input. */
module Multipart {
  import opened Js

  /** The properties of a formidable File object that the endpoints read.
      `filepath`/`mimetype`/`originalFilename`/`newFilename` are the current
      names, `path`/`mimeType` the legacy ones the code falls back to. */
  datatype FileInfo = FileInfo(
    filepath: Option<string>,
    path: Option<string>,
    mimetype: Option<string>,
    legacyType: Option<string>,
    originalFilename: Option<string>,
    newFilename: Option<string>,
    size: Option<int>)

  /** A field holds one File object or an array of them. Both are truthy. */
  datatype FileField = Single(file: FileInfo) | Multiple(files: seq<FileInfo>)

  /** `form.parse` either rejects with an error or yields the files. */
  datatype FormResult = FormError(message: string) | FormFiles(files: map<string, FileField>)

  /** `files[keys[0]] || files[keys[1]] || ...`: the field under the first
      listed name that is present. */
  function PickField(files: map<string, FileField>, keys: seq<string>): (r: Option<FileField>)
    ensures r.None? <==> forall k :: 0 <= k < |keys| ==> keys[k] !in files
    ensures r.Some? ==> exists k :: 0 <= k < |keys| && keys[k] in files && r.value == files[keys[k]]
  {
    if keys == [] then None
    else if keys[0] in files then Some(files[keys[0]])
    else
      var rest := PickField(files, keys[1..]);
      assert forall k :: 1 <= k < |keys| ==> keys[k] == keys[1..][k - 1];
      rest
  }

  /** It is the FIRST present name that wins. */
  lemma {:induction false} PickFieldFirst(files: map<string, FileField>, keys: seq<string>, k: nat)
    requires k < |keys| && keys[k] in files
    requires forall j :: 0 <= j < k ==> keys[j] !in files
    ensures PickField(files, keys) == Some(files[keys[k]])
    decreases k
  {
    if k > 0 {
      PickFieldFirst(files, keys[1..], k - 1);
    }
  }

  /** `Array.isArray(file) ? file[0] : file`; None stands for the
      `undefined` an empty array yields. */
  function FirstFile(field: FileField): (r: Option<FileInfo>)
    ensures field.Single? ==> r == Some(field.file)
    ensures field.Multiple? ==> (r.None? <==> field.files == [])
    ensures field.Multiple? && r.Some? ==> r.value == field.files[0]
  {
    match field
    case Single(f) => Some(f)
    case Multiple(fs) => if fs == [] then None else Some(fs[0])
  }

  /** `typeof f.size === 'number' ? f.size : 0`. */
  function SizeOf(f: FileInfo): int {
    if f.size.Some? then f.size.value else 0
  }

  /** `fs.readFile` of the temporary file the parser wrote: its length in
      bytes, or the error it throws. */
  datatype ReadResult = ReadOk(length: nat) | ReadFailed(message: string)

  /** The message of the TypeError thrown by reading `filepath` of undefined. */
  const UndefinedFileError: string := "Cannot read properties of undefined (reading 'filepath')"
}

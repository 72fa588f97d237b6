/**
 * The log-filename builder of backend/src/shared/loggers.py: optional parts joined by a
 * separator, followed by the extension with exactly one leading dot. The clocks and the
 * uuid generator are parameters.
 */
module Loggers {
  import opened Wrappers
  import opened Text
  import opened Py

  /** `unique_identifier`: a flag (`True` asks for a uuid), an explicit identifier, or `None`. */
  datatype UniqueIdentifier = Flag(on: bool) | Given(id: string) | Absent

  /** Truthiness of an optional string argument: `None` and "" are false. */
  predicate Truthy(s: Option<string>)
  {
    s.Some? && s.value != ""
  }

  predicate IdentifierTruthy(u: UniqueIdentifier)
  {
    match u
    case Flag(on) => on
    case Given(id) => id != ""
    case Absent => false
  }

  /** The default `add_current_datetime_as_format`. */
  const DefaultDatetimeFormat := "%Y%m%d%H%M%S%f"

  /** The default `part_separator`. */
  const DefaultSeparator := "-"

  /** `file_extension`, with a "." put in front when it has none. */
  function NormalizedExtension(fileExtension: string): (ext: string)
    ensures StartsWith(ext, ".")
    ensures StartsWith(fileExtension, ".") ==> ext == fileExtension
    ensures !StartsWith(fileExtension, ".") ==> ext == "." + fileExtension
  {
    if StartsWith(fileExtension, ".") then fileExtension else "." + fileExtension
  }

  /** Normalising twice changes nothing more: at most one dot is ever added. */
  lemma NormalizedExtensionIdempotent(fileExtension: string)
    ensures NormalizedExtension(NormalizedExtension(fileExtension)) == NormalizedExtension(fileExtension)
  {
  }

  /** The identifier part, if any: a fresh uuid for `True`, the given identifier verbatim. */
  function IdentifierPart(u: UniqueIdentifier, newUuid: string): seq<string>
  {
    if !IdentifierTruthy(u) then [] else if u.Flag? then [newUuid] else [u.id]
  }

  function OptionalPart(s: Option<string>): seq<string>
  {
    if Truthy(s) then [s.value] else []
  }

  function Count(b: bool): nat
  {
    if b then 1 else 0
  }

  /** The parts of the filename, each present only when its argument is truthy. */
  function FilenameParts(prefix: Option<string>, datetimeFormat: Option<string>, useUtc: bool, uniqueIdentifier: UniqueIdentifier,
                         suffix: Option<string>, utcNow: Moment, localNow: Moment, newUuid: string, strftime: (Moment, string) -> string): seq<string>
  {
    var now := if useUtc then utcNow else localNow;
    OptionalPart(prefix)
    + (if Truthy(datetimeFormat) then [strftime(now, datetimeFormat.value)] else [])
    + IdentifierPart(uniqueIdentifier, newUuid)
    + OptionalPart(suffix)
  }

  /**
   * The parts of the filename in order: prefix, datetime, identifier, suffix, each only when
   * its argument is truthy; the datetime comes from the UTC or the local clock.
   */
  lemma FilenamePartsLayout(prefix: Option<string>, datetimeFormat: Option<string>, useUtc: bool, uniqueIdentifier: UniqueIdentifier,
                            suffix: Option<string>, utcNow: Moment, localNow: Moment, newUuid: string, strftime: (Moment, string) -> string)
    ensures var parts := FilenameParts(prefix, datetimeFormat, useUtc, uniqueIdentifier, suffix, utcNow, localNow, newUuid, strftime);
      && |parts| == Count(Truthy(prefix)) + Count(Truthy(datetimeFormat)) + Count(IdentifierTruthy(uniqueIdentifier)) + Count(Truthy(suffix))
      && (Truthy(prefix) ==> parts[0] == prefix.value)
      && (Truthy(datetimeFormat) ==>
            parts[Count(Truthy(prefix))] == strftime(if useUtc then utcNow else localNow, datetimeFormat.value))
      && (IdentifierTruthy(uniqueIdentifier) ==>
            parts[Count(Truthy(prefix)) + Count(Truthy(datetimeFormat))] == (if uniqueIdentifier.Flag? then newUuid else uniqueIdentifier.id))
      && (Truthy(suffix) ==> parts[|parts| - 1] == suffix.value)
  {
  }

  /** `get_filename_for_new_file`. */
  method GetFilenameForNewFile(fileExtension: string, prefix: Option<string>, datetimeFormat: Option<string>, useUtc: bool,
                               uniqueIdentifier: UniqueIdentifier, partSeparator: string, suffix: Option<string>,
                               utcNow: Moment, localNow: Moment, newUuid: string, strftime: (Moment, string) -> string)
    returns (filename: string)
    ensures filename == Join(FilenameParts(prefix, datetimeFormat, useUtc, uniqueIdentifier, suffix, utcNow, localNow, newUuid, strftime), partSeparator)
                        + NormalizedExtension(fileExtension)
  {
    var filenameParts: seq<string> := [];
    if Truthy(prefix) {
      filenameParts := filenameParts + [prefix.value];
    }
    assert filenameParts == OptionalPart(prefix);
    if Truthy(datetimeFormat) {
      var now := if useUtc then utcNow else localNow;
      var currentDatetime := strftime(now, datetimeFormat.value);
      filenameParts := filenameParts + [currentDatetime];
    }
    ghost var datetimePart := if Truthy(datetimeFormat) then [strftime(if useUtc then utcNow else localNow, datetimeFormat.value)] else [];
    assert filenameParts == OptionalPart(prefix) + datetimePart;
    if IdentifierTruthy(uniqueIdentifier) {
      filenameParts := filenameParts + [if uniqueIdentifier.Flag? then newUuid else uniqueIdentifier.id];
    }
    assert filenameParts == OptionalPart(prefix) + datetimePart + IdentifierPart(uniqueIdentifier, newUuid);
    if Truthy(suffix) {
      filenameParts := filenameParts + [suffix.value];
    }
    assert filenameParts == FilenameParts(prefix, datetimeFormat, useUtc, uniqueIdentifier, suffix, utcNow, localNow, newUuid, strftime);
    var ext := if StartsWith(fileExtension, ".") then fileExtension else "." + fileExtension;
    filename := Join(filenameParts, partSeparator) + ext;
  }

  /** With every part switched off the filename is the extension alone. */
  lemma NoPartsIsExtensionOnly(fileExtension: string, partSeparator: string, utcNow: Moment, localNow: Moment, newUuid: string,
                               strftime: (Moment, string) -> string)
    ensures Join(FilenameParts(None, None, true, Flag(false), None, utcNow, localNow, newUuid, strftime), partSeparator)
            + NormalizedExtension(fileExtension) == NormalizedExtension(fileExtension)
  {
  }

  /** The defaults: a UTC timestamp and a fresh uuid joined by "-". */
  lemma DefaultFilename(fileExtension: string, utcNow: Moment, localNow: Moment, newUuid: string, strftime: (Moment, string) -> string)
    ensures Join(FilenameParts(None, Some(DefaultDatetimeFormat), true, Flag(true), None, utcNow, localNow, newUuid, strftime), DefaultSeparator)
            + NormalizedExtension(fileExtension)
         == strftime(utcNow, DefaultDatetimeFormat) + "-" + newUuid + NormalizedExtension(fileExtension)
  {
  }

  /**
   * When the separator is one character that no part contains, the name without its
   * extension splits back into exactly the parts, in order. This does not cover the default
   * names: the default separator is "-" and the text of a fresh uuid4 contains "-".
   */
  lemma FilenameSplitsIntoParts(filename: string, parts: seq<string>, sep: char, fileExtension: string)
    requires |parts| >= 1
    requires forall i :: 0 <= i < |parts| ==> sep !in parts[i]
    requires filename == Join(parts, [sep]) + NormalizedExtension(fileExtension)
    ensures |NormalizedExtension(fileExtension)| <= |filename|
    ensures Split(filename[..|filename| - |NormalizedExtension(fileExtension)|], sep) == parts
  {
    var stem := Join(parts, [sep]);
    assert filename[..|filename| - |NormalizedExtension(fileExtension)|] == stem;
    SplitJoin(parts, sep);
  }
}

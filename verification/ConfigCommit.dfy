/**
 Committing a configuration change (config_management.py): compare-and-set under the config lock, with the
 legacy provider file moved aside and put back if the change does not go through.
*/
module ConfigCommit {
  import opened Prelude

  /** The legacy file and its backups `.migrated`, `.migrated.1`, ... */
  datatype Name = Backends | Migrated(index: nat)

  /** A raw value as the user types it, parsed by its field; None if it does not parse. */
  type Parser = (string, string) -> Option<string>

  /** The keys in order, with the values they would get; fails on an unknown key or a value that does not parse. */
  function Apply(values: map<string, string>, assignments: seq<(string, string)>, parse: Parser): Result<map<string, string>> {
    if assignments == [] then Ok(values)
    else
      var n := |assignments| - 1;
      var front := Apply(values, assignments[..n], parse);
      var (key, raw) := assignments[n];
      if front.Raise? || key !in values || parse(key, raw).None? then Raise
      else Ok(front.value[key := parse(key, raw).value])
  }

  /** The values are still those the user was asked to confirm. */
  predicate Current(values: map<string, string>, expected: map<string, string>) {
    forall k :: k in expected ==> k in values && values[k] == expected[k]
  }

  /** The legacy file went to a name that was free, if there was one to move. */
  predicate MovedAside(before: map<Name, string>, after: map<Name, string>, migrate: bool, moved: Option<Name>) {
    && (moved.Some? <==> migrate && Backends in before)
    && (moved.None? ==> after == before)
    && (moved.Some? ==>
          && moved.value !in before && Backends !in after
          && after == before[moved.value := before[Backends]] - {Backends})
  }

  class Directory {
    var values: map<string, string>       // the configuration, every known key with its value
    var files: map<Name, string>

    constructor (found: map<string, string>, legacy: map<Name, string>)
      ensures values == found && files == legacy
    {
      values, files := found, legacy;
    }

    /** `_legacy_backup_path`: the first name not taken. */
    method BackupName() returns (name: Name)
      ensures name.Migrated? && name !in files
      ensures forall i :: 0 <= i < name.index ==> Migrated(i) in files
    {
      var index := 0;
      ghost var left := files.Keys;
      while Migrated(index) in files
        invariant forall i :: 0 <= i < index ==> Migrated(i) in files
        invariant forall i: nat :: Migrated(i) in files && i >= index ==> Migrated(i) in left
        decreases left
      {
        left := left - {Migrated(index)};
        index := index + 1;
      }
      return Migrated(index);
    }

    /** `Path.replace`. */
    method Rename(from: Name, to: Name)
      requires from in files && from != to
      modifies this
      ensures values == old(values) && files == old(files)[to := old(files)[from]] - {from}
    {
      files := files[to := files[from]] - {from};
    }

    /**
     `commit_config_change`; `accepted` is whether the new configuration validates and is written, and `listed`
     whether the services to restart could then be listed. Either everything happens or nothing does, and no
     backup is ever overwritten; but it is the listing that comes last: if it fails, the change is committed and
     the caller sees only an exception.
    */
    method Commit(assignments: seq<(string, string)>, parse: Parser, expected: map<string, string>, migrate: bool,
                  accepted: bool, listed: bool)
      returns (backup: Result<Option<Name>>)
      modifies this
      ensures var committed := Current(old(values), expected) && Apply(old(values), assignments, parse).Ok? && accepted;
              && (backup.Ok? <==> committed && listed)
              && (!committed ==> values == old(values) && files == old(files))
              && (committed ==>
                    && Apply(old(values), assignments, parse) == Ok(values)
                    && exists moved :: MovedAside(old(files), files, migrate, moved) && (backup.Ok? ==> backup.value == moved))
    {
      if !Current(values, expected) {
        return Raise;
      }
      var updated := Apply(values, assignments, parse);
      if updated.Raise? {
        return Raise;
      }
      var name: Option<Name> := None;
      if migrate && Backends in files {
        var free := BackupName();
        name := Some(free);
        Rename(Backends, free);
      }
      if !accepted {
        if name.Some? {
          Rename(name.value, Backends);
          assert files == old(files);
        }
        return Raise;
      }
      values := updated.value;
      assert MovedAside(old(files), files, migrate, name);
      return if listed then Ok(name) else Raise;
    }
  }

  /** The value a key is left with: that of its last assignment, or its old one. */
  function LastOf(assignments: seq<(string, string)>, key: string): Option<string> {
    if assignments == [] then None
    else
      var n := |assignments| - 1;
      if assignments[n].0 == key then Some(assignments[n].1) else LastOf(assignments[..n], key)
  }

  /** Only assigned keys change, and no key appears or disappears. */
  lemma {:induction false} ApplyChangesOnlyItsKeys(values: map<string, string>, assignments: seq<(string, string)>,
                                                   parse: Parser, key: string)
    requires Apply(values, assignments, parse).Ok? && key in values
    ensures var r := Apply(values, assignments, parse).value;
            && r.Keys == values.Keys
            && r[key] == match LastOf(assignments, key)
                         case None => values[key]
                         case Some(raw) => if parse(key, raw).Some? then parse(key, raw).value else ""
    ensures LastOf(assignments, key).Some? ==> parse(key, LastOf(assignments, key).value).Some?
  {
    if assignments != [] {
      ApplyChangesOnlyItsKeys(values, assignments[..|assignments| - 1], parse, key);
    }
  }
}

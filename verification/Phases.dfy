/** The storage namespaces that keep forward, compensation and failure steps apart. */
module Phases {

  datatype Phase = Main | Compensation | Failure

  /** Where a step record lives: its phase and the name its author gave it. */
  datatype Key = Key(phase: Phase, name: string)

  const ROLLBACK_PREFIX := "__rollback__:"
  const FAILURE_PREFIX := "__failure__:"

  function Prefix(phase: Phase): string {
    match phase
    case Main => ""
    case Compensation => ROLLBACK_PREFIX
    case Failure => FAILURE_PREFIX
  }

  /** The field a step is stored under. */
  function StorageKey(key: Key): string {
    Prefix(key.phase) + key.name
  }

  /** Names that a main-phase step must avoid. */
  predicate Reserved(name: string) {
    ROLLBACK_PREFIX <= name || FAILURE_PREFIX <= name
  }

  /** Two internal steps never share a field, and within one phase names stay distinct. */
  lemma InternalKeysApart(a: Key, b: Key)
    requires a.phase == b.phase || (a.phase != Main && b.phase != Main)
    ensures StorageKey(a) == StorageKey(b) <==> a == b
  {
    if a.phase != b.phase {
      // The two prefixes already differ in their third letter.
      assert StorageKey(a)[2] != StorageKey(b)[2];
    } else if StorageKey(a) == StorageKey(b) {
      var n := |Prefix(a.phase)|;
      assert a.name == StorageKey(a)[n..] == StorageKey(b)[n..] == b.name;
    }
  }

  /** A main-phase name can be mistaken for an internal step exactly when it carries a reserved prefix. */
  lemma ReservedNamesCollide(name: string)
    ensures Reserved(name) <==>
            exists key: Key :: key.phase != Main && StorageKey(key) == StorageKey(Key(Main, name))
  {
    assert StorageKey(Key(Main, name)) == name;
    if ROLLBACK_PREFIX <= name {
      var key := Key(Compensation, name[|ROLLBACK_PREFIX|..]);
      assert StorageKey(key) == name;
    } else if FAILURE_PREFIX <= name {
      var key := Key(Failure, name[|FAILURE_PREFIX|..]);
      assert StorageKey(key) == name;
    }
  }

  /**
   * Addressing records by phase and name, as the rest of the model does, loses nothing:
   * on every set of steps whose main names are not reserved, fields and keys correspond one to one.
   */
  lemma StorageKeysFaithful(a: Key, b: Key)
    requires a.phase == Main ==> !Reserved(a.name)
    requires b.phase == Main ==> !Reserved(b.name)
    ensures StorageKey(a) == StorageKey(b) <==> a == b
  {
    if a.phase == b.phase || (a.phase != Main && b.phase != Main) {
      InternalKeysApart(a, b);
    } else if a.phase == Main {
      ReservedNamesCollide(a.name);
    } else {
      ReservedNamesCollide(b.name);
      assert StorageKey(b) == StorageKey(Key(Main, b.name));
    }
  }
}

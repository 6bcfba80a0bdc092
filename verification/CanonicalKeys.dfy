/** The order in which canonical JSON writes the keys of an object. */
module CanonicalKeys {
  import opened Common
  import opened JsonText
  import opened CanonicalJson

  /** At the first difference the left text ends or has the smaller code unit. */
  predicate IsBefore(a: Text, b: Text) {
    exists k :: 0 <= k <= |a| && k < |b| && DiffersAt(a, b, k)
  }

  predicate DiffersAt(a: Text, b: Text, k: nat)
    requires k <= |a| && k < |b|
  {
    a[..k] == b[..k] && (k < |a| ==> a[k] < b[k])
  }

  lemma {:induction false} LessIffBefore(a: Text, b: Text)
    ensures Less(a, b) <==> IsBefore(a, b)
  {
    if b != [] && (a == [] || a[0] != b[0]) {
      assert DiffersAt(a, b, 0) <==> Less(a, b);
      forall k | 0 < k <= |a| && k < |b| ensures !DiffersAt(a, b, k) {
        assert a[..k][0] == a[0] && b[..k][0] == b[0];
      }
    } else if b != [] {
      LessIffBefore(a[1..], b[1..]);
      forall k | 0 < k <= |a| && k < |b| ensures DiffersAt(a, b, k) <==> DiffersAt(a[1..], b[1..], k - 1) {
        DifferLater(a, b, k);
      }
      if IsBefore(a[1..], b[1..]) {
        var k :| 0 <= k <= |a[1..]| && k < |b[1..]| && DiffersAt(a[1..], b[1..], k);
        assert DiffersAt(a, b, k + 1);
      }
    }
  }

  lemma {:induction false} DifferLater(a: Text, b: Text, k: nat)
    requires 0 < k <= |a| && k < |b| && a[0] == b[0]
    ensures DiffersAt(a, b, k) <==> DiffersAt(a[1..], b[1..], k - 1)
  {
    assert a[..k] == [a[0]] + a[1..][..k - 1] && b[..k] == [b[0]] + b[1..][..k - 1];
    if a[..k] == b[..k] {
      assert a[1..][..k - 1] == a[..k][1..] && b[1..][..k - 1] == b[..k][1..];
    }
  }

  /** An object is written with one field for each entry, its own text behind it, and its keys in code unit order. */
  lemma {:induction false} KeysAreInOrder(entries: seq<Entry>) returns (fs: seq<Field>)
    requires Clean(Obj(entries))
    ensures Serialized(Obj(entries)) == [OPEN_OBJECT] + FieldsFrom(fs, 0) && |fs| == |entries|
    ensures forall i, j :: 0 <= i < j < |fs| ==> IsBefore(fs[i].key, fs[j].key)
    ensures forall i :: 0 <= i < |entries| ==> Field(entries[i].key, Serialized(entries[i].value)) in fs
  {
    var fields := Fields(entries);
    fs := Sorted(fields);
    SortedSorts(fields);
    forall i, j | 0 <= i < j < |fs| ensures IsBefore(fs[i].key, fs[j].key) {
      LessIffBefore(fs[i].key, fs[j].key);
    }
    forall i | 0 <= i < |entries| ensures Field(entries[i].key, Serialized(entries[i].value)) in fs {
      assert fields[i] in fields;
    }
  }
}

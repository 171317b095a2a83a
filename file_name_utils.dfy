/*
 * File-name helpers of the backend: a suffix inserted before a name's
 * extension, and the AI type read back out of an object key that carries
 * "_AI_<type>" in front of its extension. A Java `null` string is `None`.
 */
module FileNameUtils {
  import opened Common

  /**
   * Where a name's extension starts: at its last '.', or at its end when it
   * has no '.'.
   */
  function ExtensionStart(name: string): (d: nat)
    ensures d <= |name|
    ensures '.' !in name ==> d == |name|
    ensures '.' in name ==> d < |name| && name[d] == '.' && '.' !in name[d + 1..]
  {
    var i := LastIndexOf(name, ".");
    if i == -1 then
      assert forall j | 0 <= j < |name| :: name[j] != '.' by {
        forall j | 0 <= j < |name| ensures name[j] != '.' { OccursAtChar(name, '.', j); }
      }
      |name|
    else
      OccursAtChar(name, '.', i);
      assert forall j | i < j < |name| :: name[j] != '.' by {
        forall j | i < j < |name| ensures name[j] != '.' { OccursAtChar(name, '.', j); }
      }
      var tail := name[i + 1..];
      forall j | 0 <= j < |tail| ensures tail[j] != '.' {
        assert tail[j] == name[i + 1 + j];
      }
      i
  }

  /**
   * `addSuffixBeforeExtension`: a null or empty name comes back unchanged;
   * otherwise the suffix goes in front of the extension, which is kept.
   */
  function AddSuffixBeforeExtension(fileName: Option<string>, suffix: string): (r: Option<string>)
    ensures fileName.None? || fileName == Some("") ==> r == fileName
    ensures fileName.Some? && fileName.value != "" ==>
      var n := fileName.value;
      var d := ExtensionStart(n);
      r.Some? && |r.value| == |n| + |suffix| &&
      r.value[..d] == n[..d] && r.value[d..d + |suffix|] == suffix && r.value[d + |suffix|..] == n[d..]
    ensures fileName.Some? && fileName.value != "" && '.' !in fileName.value ==>
      r == Some(fileName.value + suffix)
  {
    if fileName.None? || fileName.value == "" then fileName
    else
      var n := fileName.value;
      var d := LastIndexOf(n, ".");
      if d == -1 then
        assert ExtensionStart(n) == |n|;
        Some(n + suffix)
      else
        Some(n[..d] + suffix + n[d..])
  }

  /** Where the type starts: just after the last "_AI_", or -1 without one. */
  const Marker := "_AI_"

  /**
   * `extractAITypeFromKey`: null for a null or empty key or one without
   * "_AI_"; otherwise the text after the last "_AI_", cut at the last '.'
   * when that dot comes after it.
   */
  function ExtractAITypeFromKey(key: Option<string>): (r: Option<string>)
    ensures key.None? || key == Some("") ==> r.None?
    ensures key.Some? && key.value != "" ==> (r.Some? <==> LastIndexOf(key.value, Marker) != -1)
    ensures r.Some? ==>
      var k := key.value;
      var start := LastIndexOf(k, Marker) + |Marker|;
      start + |r.value| <= |k| && k[start..start + |r.value|] == r.value &&
      (start + |r.value| == |k| || k[start + |r.value|] == '.')
    ensures r.Some? ==>
      var k := key.value;
      var end := LastIndexOf(k, Marker) + |Marker| + |r.value|;
      (end < |k| ==> '.' !in k[end + 1..]) && (end == |k| ==> '.' !in r.value)
  {
    if key.None? || key.value == "" then None
    else
      var k := key.value;
      var a := LastIndexOf(k, Marker);
      if a == -1 then None
      else
        var dot := LastIndexOf(k, ".");
        var start := a + |Marker|;
        assert ExtensionStart(k) == (if dot == -1 then |k| else dot);
        if dot == -1 || dot < start then
          assert '.' !in k[start..] by {
            var from := if dot == -1 then 0 else dot + 1;
            assert k[start..] == k[from..][start - from..];
          }
          Some(k[start..])
        else
          OccursAtChar(k, '.', dot);
          Some(k[start..dot])
  }

  /**
   * The text `ExtractAITypeFromKey` reads never holds a later "_AI_": it is
   * taken after the last one.
   */
  lemma ExtractedHasNoMarker(key: Option<string>)
    requires ExtractAITypeFromKey(key).Some?
    ensures !Contains(ExtractAITypeFromKey(key).value, Marker)
  {
    var k := key.value;
    var t := ExtractAITypeFromKey(key).value;
    var start := LastIndexOf(k, Marker) + |Marker|;
    forall j | 0 <= j <= |t| - |Marker| ensures !OccursAt(t, Marker, j) {
      assert t[j..j + |Marker|] == k[start + j..start + j + |Marker|];
      assert !OccursAt(k, Marker, start + j);
    }
  }

  /** A key marked with "_AI_" + T just before its extension. */
  function Marked(k: string, t: string): (m: string)
  {
    var d := ExtensionStart(k);
    k[..d] + Marker + t + k[d..]
  }

  /** In a marked key the inserted marker is the last "_AI_". */
  lemma {:induction false} MarkerIsLast(k: string, t: string)
    requires '_' !in t && '_' !in k[ExtensionStart(k)..]
    ensures LastIndexOf(Marked(k, t), Marker) == ExtensionStart(k)
  {
    var d := ExtensionStart(k);
    var ext := k[d..];
    var m := Marked(k, t);
    var e := d + |Marker| + |t|;
    assert m[d..d + |Marker|] == Marker;
    forall j | d < j <= |m| - |Marker| ensures !OccursAt(m, Marker, j) {
      assert m[j..j + |Marker|][0] == m[j] && m[j..j + |Marker|][3] == m[j + 3];
      if j < d + |Marker| {
        assert m[j] == Marker[j - d];
        if j + 3 < e {
          assert m[j + 3] == t[j + 3 - d - |Marker|];
        } else {
          assert m[j + 3] == ext[j + 3 - e];
        }
      } else if j < e {
        assert m[j] == t[j - d - |Marker|];
      } else {
        assert m[j] == ext[j - e];
      }
    }
    LastIndexOfIs(m, Marker, d);
  }

  /** In a marked key the last '.' is the extension's, or there is none. */
  lemma {:induction false} MarkedDot(k: string, t: string)
    requires '.' !in t
    ensures '.' in k ==> LastIndexOf(Marked(k, t), ".") == ExtensionStart(k) + |Marker| + |t|
    ensures '.' !in k ==> LastIndexOf(Marked(k, t), ".") == -1
  {
    var d := ExtensionStart(k);
    var ext := k[d..];
    var m := Marked(k, t);
    var e := d + |Marker| + |t|;
    if '.' in k {
      OccursAtChar(m, '.', e);
      forall j | e < j ensures !OccursAt(m, ".", j) {
        OccursAtChar(m, '.', j);
        if j < |m| {
          assert m[j] == ext[j - e] == k[d + 1..][j - e - 1];
        }
      }
      LastIndexOfIs(m, ".", e);
    } else {
      forall j ensures !OccursAt(m, ".", j) {
        OccursAtChar(m, '.', j);
        if 0 <= j < |m| {
          if j < d {
            assert m[j] == k[j];
          } else if j >= d + |Marker| {
            assert m[j] == t[j - d - |Marker|];
          }
        }
      }
    }
  }

  /**
   * Round trip: marking a key with "_AI_" + T before its extension and
   * reading the type back gives T, when T has neither '.' nor '_' and the
   * extension has no '_' (so the inserted marker is the last one).
   */
  lemma {:induction false} SuffixThenExtract(k: string, t: string)
    requires k != ""
    requires '.' !in t && '_' !in t
    requires '_' !in k[ExtensionStart(k)..]
    ensures ExtractAITypeFromKey(AddSuffixBeforeExtension(Some(k), Marker + t)) == Some(t)
  {
    var d := ExtensionStart(k);
    var m := Marked(k, t);
    var r := AddSuffixBeforeExtension(Some(k), Marker + t).value;
    assert r == r[..d] + r[d..d + |Marker + t|] + r[d + |Marker + t|..];
    assert r == m;
    MarkerIsLast(k, t);
    MarkedDot(k, t);
    var start := d + |Marker|;
    assert m[start..start + |t|] == t;
  }
}

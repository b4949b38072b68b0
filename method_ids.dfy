/**
 * Method identifiers: the key under which a gRPC method is registered and
 * looked up, `svc/mtd` or `pkg.svc/mtd`.
 */
module MethodIds {
  import opened Wrappers

  /** Go's `type MethodID string`: a distinct type over the canonical text. */
  datatype MethodID = MethodID(text: string) {

    /** The canonical text; converting it back gives the same identifier. */
    function String(): (s: string)
      ensures MethodID(s) == this
    {
      text
    }
  }

  /** The identifier of method `mtd` of service `svc` in package `pkg`. */
  function NewMethodID(pkg: string, svc: string, mtd: string): MethodID {
    if pkg == "" then MethodID(svc + "/" + mtd) else MethodID(pkg + "." + svc + "/" + mtd)
  }

  /** The two canonical forms, selected by whether the package is empty. */
  lemma NewMethodIDFormat(pkg: string, svc: string, mtd: string)
    ensures pkg == "" ==> NewMethodID(pkg, svc, mtd).String() == svc + "/" + mtd
    ensures pkg != "" ==> NewMethodID(pkg, svc, mtd).String() == pkg + "." + svc + "/" + mtd
  {
  }

  /**
   * A package prefix folds into the service name: an event naming package
   * `p` and service `s` reaches a method registered under the fully
   * qualified service name `p.s` (registration always uses no package).
   */
  lemma PackageCollapsesIntoService(p: string, s: string, m: string)
    requires p != ""
    ensures NewMethodID(p, s, m) == NewMethodID("", p + "." + s, m)
  {
  }

  /**
   * Names for which the canonical form is unambiguous: the package may be
   * dotted (`helloworld.v1`) but holds no `/`, and the service name holds
   * neither separator. The method name is unrestricted.
   */
  predicate Unambiguous(pkg: string, svc: string) {
    '/' !in pkg && '/' !in svc && '.' !in svc
  }

  /** Position of the first `c` in `s`, if any. */
  function FirstIndexOf(s: string, c: char): (r: Option<nat>)
    ensures r.Some? ==> r.value < |s| && s[r.value] == c
    ensures r.Some? ==> forall k :: 0 <= k < r.value ==> s[k] != c
    ensures r.None? ==> forall k :: 0 <= k < |s| ==> s[k] != c
  {
    if s == [] then None
    else if s[0] == c then Some(0)
    else
      match FirstIndexOf(s[1..], c)
      case None => None
      case Some(k) => Some(k + 1)
  }

  /** Position of the last `c` in `s`, if any. */
  function LastIndexOf(s: string, c: char): (r: Option<nat>)
    ensures r.Some? ==> r.value < |s| && s[r.value] == c
    ensures r.Some? ==> forall k :: r.value < k < |s| ==> s[k] != c
    ensures r.None? ==> forall k :: 0 <= k < |s| ==> s[k] != c
  {
    if s == [] then None
    else if s[|s| - 1] == c then Some(|s| - 1)
    else LastIndexOf(s[..|s| - 1], c)
  }

  /**
   * Reads (package, service, method) back out of an identifier: the method
   * follows the first `/`, the package precedes the last `.` before it.
   */
  function SplitMethodID(id: MethodID): Option<(string, string, string)> {
    match FirstIndexOf(id.text, '/')
    case None => None
    case Some(i) =>
      var qualified, mtd := id.text[..i], id.text[i + 1..];
      match LastIndexOf(qualified, '.')
      case None => Some(("", qualified, mtd))
      case Some(d) => Some((qualified[..d], qualified[d + 1..], mtd))
  }

  /** The first `c` is at `i` when `s[i]` is one and nothing before it is. */
  lemma FirstIndexOfAt(s: string, c: char, i: nat)
    requires i < |s| && s[i] == c
    requires forall k :: 0 <= k < i ==> s[k] != c
    ensures FirstIndexOf(s, c) == Some(i)
  {
  }

  /** The last `c` is at `i` when `s[i]` is one and nothing after it is. */
  lemma LastIndexOfAt(s: string, c: char, i: nat)
    requires i < |s| && s[i] == c
    requires forall k :: i < k < |s| ==> s[k] != c
    ensures LastIndexOf(s, c) == Some(i)
  {
  }

  /** Splitting `qualified/mtd` at its first `/` when `qualified` holds none. */
  lemma SplitAtSlash(qualified: string, mtd: string)
    requires '/' !in qualified
    ensures var text := qualified + "/" + mtd;
      FirstIndexOf(text, '/') == Some(|qualified|) && text[..|qualified|] == qualified && text[|qualified| + 1..] == mtd
  {
    var text := qualified + "/" + mtd;
    assert forall k :: 0 <= k < |qualified| ==> text[k] == qualified[k];
    FirstIndexOfAt(text, '/', |qualified|);
    assert text[..|qualified|] == qualified;
    assert text[|qualified| + 1..] == mtd;
  }

  /** Splitting `pkg.svc` at its last `.` when `svc` holds none. */
  lemma SplitAtLastDot(pkg: string, svc: string)
    requires '.' !in svc
    ensures var qualified := pkg + "." + svc;
      LastIndexOf(qualified, '.') == Some(|pkg|) && qualified[..|pkg|] == pkg && qualified[|pkg| + 1..] == svc
  {
    var qualified := pkg + "." + svc;
    assert forall k :: |pkg| < k < |qualified| ==> qualified[k] == svc[k - |pkg| - 1];
    LastIndexOfAt(qualified, '.', |pkg|);
    assert qualified[..|pkg|] == pkg;
    assert qualified[|pkg| + 1..] == svc;
  }

  /** `SplitMethodID` inverts `NewMethodID` on unambiguous names. */
  lemma SplitNewMethodID(pkg: string, svc: string, mtd: string)
    requires Unambiguous(pkg, svc)
    ensures SplitMethodID(NewMethodID(pkg, svc, mtd)) == Some((pkg, svc, mtd))
  {
    if pkg == "" {
      SplitAtSlash(svc, mtd);
    } else {
      var qualified := pkg + "." + svc;
      assert '/' !in qualified by {
        assert forall k :: 0 <= k < |qualified| ==> qualified[k] in pkg || qualified[k] == '.' || qualified[k] in svc;
      }
      SplitAtSlash(qualified, mtd);
      SplitAtLastDot(pkg, svc);
    }
  }

  /** Distinct unambiguous triples never share an identifier. */
  lemma NewMethodIDInjective(p1: string, s1: string, m1: string, p2: string, s2: string, m2: string)
    requires Unambiguous(p1, s1) && Unambiguous(p2, s2)
    requires NewMethodID(p1, s1, m1) == NewMethodID(p2, s2, m2)
    ensures p1 == p2 && s1 == s2 && m1 == m2
  {
    SplitNewMethodID(p1, s1, m1);
    SplitNewMethodID(p2, s2, m2);
  }

  /**
   * Registration builds keys with an empty package from fully qualified,
   * possibly dotted, service names: only `/` in the service name could make
   * two of them collide.
   */
  lemma RegisteredKeysInjective(s1: string, m1: string, s2: string, m2: string)
    requires '/' !in s1 && '/' !in s2
    requires NewMethodID("", s1, m1) == NewMethodID("", s2, m2)
    ensures s1 == s2 && m1 == m2
  {
    SplitAtSlash(s1, m1);
    SplitAtSlash(s2, m2);
  }

  /** Without the restriction on names, distinct triples do collide. */
  lemma DottedServiceCollides()
    ensures NewMethodID("a", "b", "c") == NewMethodID("", "a.b", "c")
    ensures !Unambiguous("", "a.b")
  {
    PackageCollapsesIntoService("a", "b", "c");
    assert ("a.b")[1] == '.';
  }
}

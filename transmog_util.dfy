/** `TransmogUtil.isSystemClass`: which classes belong to the Java platform. */
module TransmogUtil {
  import opened Reflection

  /** The line terminators that `.` in a Java regular expression does not match. */
  predicate IsLineTerminator(ch: char)
  {
    ch == '\n' || ch == '\r' || ch == '\U{0085}' || ch == '\U{2028}' || ch == '\U{2029}'
  }

  /** A whole-string match of `^java(x?)\..+`. */
  predicate IsJdkPackage(pkg: string)
  {
    MatchesFrom(pkg, 5) || MatchesFrom(pkg, 6)
  }

  /** `java` (k = 5) or `javax` (k = 6), a dot, then one or more non-terminator characters. */
  predicate MatchesFrom(pkg: string, k: int)
    requires k == 5 || k == 6
  {
    && |pkg| > k
    && pkg[..k] == (if k == 5 then "java." else "javax.")
    && forall i :: k <= i < |pkg| ==> !IsLineTerminator(pkg[i])
  }

  /**
   * Primitives are system classes, an array class is one when its component is,
   * and any other class is one when its package matches the JDK pattern.
   */
  predicate IsSystemClass(c: JClass)
  {
    match c
    case Primitive(_) => true
    case ArrayOf(component) => IsSystemClass(component)
    case Named(pkg, _) => IsJdkPackage(pkg)
  }

  /** The array class with `depth` dimensions over `c`. */
  function ArrayClass(c: JClass, depth: nat): (r: JClass)
    ensures depth > 0 ==> r.ArrayOf?
  {
    if depth == 0 then c else ArrayOf(ArrayClass(c, depth - 1))
  }

  /** Recursion through array components stops at the element class, whatever the depth. */
  lemma {:induction false} ArraySystemIffElement(c: JClass, depth: nat)
    ensures IsSystemClass(ArrayClass(c, depth)) <==> IsSystemClass(c)
  {
    if depth > 0 {
      ArraySystemIffElement(c, depth - 1);
    }
  }

  /** Every primitive class, and every array of primitives, is a system class. */
  lemma PrimitiveArraysAreSystem(name: string, depth: nat)
    ensures IsSystemClass(ArrayClass(Primitive(name), depth))
  {
    ArraySystemIffElement(Primitive(name), depth);
  }

  /** Any package under `java.` or `javax.`, whatever follows the dot, is a system package. */
  lemma JdkSubpackagesAreSystem(rest: string, simple: string)
    requires |rest| > 0 && forall i :: 0 <= i < |rest| ==> !IsLineTerminator(rest[i])
    ensures IsSystemClass(Named("java." + rest, simple))
    ensures IsSystemClass(Named("javax." + rest, simple))
  {
    assert ("java." + rest)[..5] == "java.";
    assert ("javax." + rest)[..6] == "javax.";
    assert forall i :: 5 <= i < |"java." + rest| ==> ("java." + rest)[i] == rest[i - 5];
    assert forall i :: 6 <= i < |"javax." + rest| ==> ("javax." + rest)[i] == rest[i - 6];
    assert MatchesFrom("java." + rest, 5);
    assert MatchesFrom("javax." + rest, 6);
  }

  /** Near misses of the pattern: the bare `java` package, `javafx.*`, and the default package. */
  lemma NearMissesAreNotSystem(simple: string)
    ensures !IsSystemClass(Named("java", simple))
    ensures !IsSystemClass(Named("javafx.scene", simple))
    ensures !IsSystemClass(Named("", simple))
    ensures !IsSystemClass(Named("java.", simple))
  {
    assert "javafx.scene"[..5][4] != "java."[4];
    assert "javafx.scene"[..6][4] != "javax."[4];
  }
}

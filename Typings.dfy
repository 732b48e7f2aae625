/** The static type tags of the language and the three operations on them:
    the assignability check used by the type checker, the parser of type
    names written in annotations, and the one-word display name. */
module Typings {
  import opened Wrappers

  /** `Function` carries an index into the compilation unit's function table;
      the type model never looks it up. */
  datatype Type = Int | Bool | Void | Function(index: nat) | Unresolved | Error

  /** The display name of a type. */
  function Display(t: Type): (s: string)
    ensures |s| > 0
  {
    match t
    case Int => "int"
    case Bool => "bool"
    case Unresolved => "unresolved"
    case Void => "void"
    case Function(_) => "function"
    case Error => "?"
  }

  /** Whether a value of type `source` may be used where `target` is expected.
      `Error` absorbs on either side, so that one reported mismatch does not
      cause another. */
  predicate IsAssignableTo(source: Type, target: Type)
    ensures source.Error? || target.Error? ==> IsAssignableTo(source, target)
    ensures IsAssignableTo(source, target) ==> source == target || source.Error? || target.Error?
  {
    match (source, target)
    case (Int, Int) => true
    case (Bool, Bool) => true
    case (Error, _) => true
    case (_, Error) => true
    case _ => false
  }

  /** The type named by a type annotation's literal, if it is a built-in one. */
  function FromStr(s: string): (r: Option<Type>)
    ensures r.Some? ==> Display(r.value) == s
    ensures r.Some? ==> r.value == Int || r.value == Bool || r.value == Void
  {
    match s
    case "int" => Some(Int)
    case "bool" => Some(Bool)
    case "void" => Some(Void)
    case _ => None
  }

  /** Two types are shown alike exactly when they have the same tag. */
  predicate SameTag(a: Type, b: Type)
  {
    a == b || (a.Function? && b.Function?)
  }

  lemma IntAndBoolAssignableToThemselves()
    ensures IsAssignableTo(Int, Int) && IsAssignableTo(Bool, Bool)
  {
  }

  lemma ErrorAbsorbs(t: Type)
    ensures IsAssignableTo(Error, t) && IsAssignableTo(t, Error)
  {
  }

  /** The whole table: besides `Error` on either side, only `Int` to `Int`
      and `Bool` to `Bool` are assignable. */
  lemma AssignableTable(a: Type, b: Type)
    ensures IsAssignableTo(a, b) <==>
      (a == Int && b == Int) || (a == Bool && b == Bool) || a == Error || b == Error
  {
  }

  /** In particular these pairs are not assignable. */
  lemma NotAssignableExamples(i: nat, j: nat)
    ensures !IsAssignableTo(Void, Void) && !IsAssignableTo(Unresolved, Unresolved)
    ensures !IsAssignableTo(Function(i), Function(j))
    ensures !IsAssignableTo(Int, Bool) && !IsAssignableTo(Bool, Int)
  {
  }

  lemma AssignableSymmetric(a: Type, b: Type)
    ensures IsAssignableTo(a, b) == IsAssignableTo(b, a)
  {
  }

  /** The parser accepts exactly the three built-in type names. */
  lemma FromStrAccepts(s: string)
    ensures FromStr(s).Some? <==> s == "int" || s == "bool" || s == "void"
  {
  }

  /** Display then parse gives back the built-in types and nothing else. */
  lemma DisplayThenParse(t: Type)
    ensures t == Int || t == Bool || t == Void ==> FromStr(Display(t)) == Some(t)
    ensures t.Unresolved? || t.Function? || t.Error? ==> FromStr(Display(t)) == None
  {
  }

  lemma DisplayIgnoresIndex(i: nat, j: nat)
    ensures Display(Function(i)) == Display(Function(j)) == "function"
  {
  }

  /** The six display names are pairwise distinct, and `Error` shows as `?`. */
  lemma DisplayDistinct(a: Type, b: Type)
    ensures Display(a) == Display(b) <==> SameTag(a, b)
    ensures Display(Error) == "?"
  {
  }
}

/** The button's class-name assembly: the variant and size lookup tables, the `cn`
    combiner (drop falsy arguments, join the rest with single spaces) and the combined
    class of a rendered button. */
module ButtonStyles {
  import opened Primitives

  datatype Variant = DefaultVariant | Destructive | Outline | Secondary | Tertiary | Ghost | Link
  datatype Size = DefaultSize | Md | Sm | Lg | Icon

  /** The entries of `buttonVariants.variant`. */
  const DefaultVariantClasses: string := "bg-text-dark text-white hover:opacity-70"
  const DestructiveClasses: string := "bg-red-500 text-white hover:bg-red-500/90"
  const OutlineClasses: string :=
    "border border-blue-500 bg-white hover:bg-gray-100 hover:text-blue-800"
  const SecondaryClasses: string :=
    "bg-transparent text-gray-900 font-medium border border-blue-500 hover:bg-gray-100/80"
  const TertiaryClasses: string :=
    "bg-gradient-to-r from-blue-100 to-blue-100 text-black font-medium border border-blue-500 hover:opacity-90"
  const GhostClasses: string := "hover:bg-gray-100 hover:text-gray-900"
  const LinkClasses: string := "text-gray-900 underline-offset-4 hover:underline"

  /** The entries of `buttonVariants.size`. */
  const DefaultSizeClasses: string := "h-12 px-4 py-2 rounded-lg"
  const MdClasses: string := "h-11 px-4 py-2"
  const SmClasses: string := "h-9 rounded-md px-3"
  const LgClasses: string := "h-14 rounded-xl px-8"
  const IconClasses: string := "h-10 w-10"

  /** `buttonVariants.variant[v]`: every variant has classes. */
  function VariantClasses(v: Variant): (r: string)
    ensures r != []
  {
    match v
    case DefaultVariant => DefaultVariantClasses
    case Destructive => DestructiveClasses
    case Outline => OutlineClasses
    case Secondary => SecondaryClasses
    case Tertiary => TertiaryClasses
    case Ghost => GhostClasses
    case Link => LinkClasses
  }

  /** `buttonVariants.size[sz]`: every size has classes. */
  function SizeClasses(sz: Size): (r: string)
    ensures r != []
  {
    match sz
    case DefaultSize => DefaultSizeClasses
    case Md => MdClasses
    case Sm => SmClasses
    case Lg => LgClasses
    case Icon => IconClasses
  }

  /** The three fixed groups of base classes every button starts with. */
  const LayoutClasses: string :=
    "inline-flex items-center justify-center whitespace-nowrap rounded-md text-base font-medium"
  const FocusClasses: string :=
    "ring-offset-white transition-colors focus-visible:outline-none focus-visible:ring-2"
  const StateClasses: string :=
    "focus-visible:ring-blue-500 focus-visible:ring-offset-2 disabled:pointer-events-none disabled:opacity-50"

  /** `classes.filter(Boolean)`: the truthy arguments' strings, in order. */
  function Present(classes: seq<Option<string>>): (r: seq<string>)
    ensures |r| <= |classes|
    ensures forall i :: 0 <= i < |r| ==> r[i] != ""
    ensures r == [] <==> forall i :: 0 <= i < |classes| ==> !Truthy(classes[i])
    decreases |classes|
  {
    if classes == [] then []
    else
      var rest := Present(classes[1..]);
      assert forall i :: 1 <= i < |classes| ==> classes[i] == classes[1..][i - 1];
      if Truthy(classes[0]) then [classes[0].value] + rest else rest
  }

  /** `parts.join(" ")`. */
  function JoinWithSpaces(parts: seq<string>): (r: string)
    ensures parts != [] ==> |r| >= |parts[0]|
    decreases |parts|
  {
    if parts == [] then ""
    else if |parts| == 1 then parts[0]
    else parts[0] + " " + JoinWithSpaces(parts[1..])
  }

  /** `cn(...classes)`: empty exactly when no argument is truthy. */
  function Cn(classes: seq<Option<string>>): (r: string)
    ensures r == "" <==> forall i :: 0 <= i < |classes| ==> !Truthy(classes[i])
  {
    JoinWithSpaces(Present(classes))
  }

  /** Filtering keeps the order: it distributes over concatenation. */
  lemma {:induction false} PresentAppend(a: seq<Option<string>>, b: seq<Option<string>>)
    ensures Present(a + b) == Present(a) + Present(b)
    decreases |a|
  {
    if a == [] {
      assert a + b == b;
    } else {
      assert (a + b)[0] == a[0] && (a + b)[1..] == a[1..] + b;
      PresentAppend(a[1..], b);
    }
  }

  /** Joining two lists puts one space between their joins, unless one is empty. */
  lemma {:induction false} JoinAppend(x: seq<string>, y: seq<string>)
    ensures JoinWithSpaces(x + y) ==
      JoinWithSpaces(x) + (if x != [] && y != [] then " " else "") + JoinWithSpaces(y)
    decreases |x|
  {
    if x == [] {
      assert x + y == y;
    } else if |x| == 1 {
      if y != [] {
        assert (x + y)[1..] == y;
      }
    } else {
      assert (x + y)[1..] == x[1..] + y;
      JoinAppend(x[1..], y);
    }
  }

  /** `cn` of one argument is its string when truthy and empty otherwise. */
  lemma CnSingle(c: Option<string>)
    ensures Cn([c]) == if Truthy(c) then c.value else ""
  {
    assert [c][1..] == [];
  }

  /** `cn` keeps the arguments' order and separates the kept ones by single spaces:
      the classes of `a + b` are those of `a`, a space when both sides kept something,
      then those of `b`. With CnSingle this determines `cn` on every argument list. */
  lemma CnAppend(a: seq<Option<string>>, b: seq<Option<string>>)
    ensures Cn(a + b) == Cn(a) + (if Cn(a) != "" && Cn(b) != "" then " " else "") + Cn(b)
  {
    PresentAppend(a, b);
    JoinAppend(Present(a), Present(b));
  }

  /** The `className` of a rendered button: the three base groups, the variant's
      classes (default "default"), the size's classes (default "sm") and the caller's
      own classes (default ""), in that order; only an empty caller class drops out. */
  function CombinedClassName(variant: Option<Variant>, size: Option<Size>, className: Option<string>): (r: string)
    ensures var v := if variant.Some? then variant.value else DefaultVariant;
      var sz := if size.Some? then size.value else Sm;
      var extra := if className.Some? then className.value else "";
      r == LayoutClasses + " " + FocusClasses + " " + StateClasses + " " +
        VariantClasses(v) + " " + SizeClasses(sz) + (if extra != "" then " " + extra else "")
  {
    var v := match variant case Some(x) => x case None => DefaultVariant;
    var sz := match size case Some(x) => x case None => Sm;
    var extra := match className case Some(x) => x case None => "";
    CombinedIsOrdered(LayoutClasses, FocusClasses, StateClasses, VariantClasses(v), SizeClasses(sz), extra);
    Cn([Some(LayoutClasses), Some(FocusClasses), Some(StateClasses),
        Some(VariantClasses(v)), Some(SizeClasses(sz)), Some(extra)])
  }

  /** `cn` with one more argument: its string follows, after a space when both the
      earlier arguments and the new one kept something. */
  lemma CnSnoc(xs: seq<Option<string>>, c: Option<string>)
    ensures Cn(xs + [c]) ==
      Cn(xs) + (if Cn(xs) != "" && Truthy(c) then " " else "") + (if Truthy(c) then c.value else "")
  {
    CnAppend(xs, [c]);
    CnSingle(c);
  }

  /** `cn` of five non-empty strings and a last, possibly empty, one. */
  lemma CombinedIsOrdered(a: string, b: string, c: string, d: string, e: string, f: string)
    requires a != "" && b != "" && c != "" && d != "" && e != ""
    ensures Cn([Some(a), Some(b), Some(c), Some(d), Some(e), Some(f)]) ==
      a + " " + b + " " + c + " " + d + " " + e + (if f != "" then " " + f else "")
  {
    CnSingle(Some(a));
    CnSnoc([Some(a)], Some(b));
    assert [Some(a)] + [Some(b)] == [Some(a), Some(b)];
    CnSnoc([Some(a), Some(b)], Some(c));
    assert [Some(a), Some(b)] + [Some(c)] == [Some(a), Some(b), Some(c)];
    CnSnoc([Some(a), Some(b), Some(c)], Some(d));
    assert [Some(a), Some(b), Some(c)] + [Some(d)] == [Some(a), Some(b), Some(c), Some(d)];
    CnSnoc([Some(a), Some(b), Some(c), Some(d)], Some(e));
    assert [Some(a), Some(b), Some(c), Some(d)] + [Some(e)] == [Some(a), Some(b), Some(c), Some(d), Some(e)];
    CnSnoc([Some(a), Some(b), Some(c), Some(d), Some(e)], Some(f));
    assert [Some(a), Some(b), Some(c), Some(d), Some(e)] + [Some(f)] ==
      [Some(a), Some(b), Some(c), Some(d), Some(e), Some(f)];
  }
}

/** The few JavaScript value semantics the adapter relies on: attribute values that may be
    missing, string coercion by `+` and template literals, and `String.prototype.includes`. */
module Js {

  /** A value read from an attribute or an identifier field. cheerio's `attr` yields
      `undefined` for a missing attribute; a caller may pass `null`. */
  datatype JsValue = Undefined | Null | Str(s: string)

  /** The string that `"..." + v` and `${v}` produce. */
  function ToJsString(v: JsValue): string
  {
    match v
    case Undefined => "undefined"
    case Null => "null"
    case Str(s) => s
  }

  /** `sub` occurs in `s` starting at index `i`. */
  predicate OccursAt(s: string, sub: string, i: nat)
  {
    i + |sub| <= |s| && s[i..i + |sub|] == sub
  }

  /** `s.includes(sub)`, computed by scanning from the front. */
  function Includes(s: string, sub: string): (b: bool)
    decreases |s|
    ensures b <==> exists i: nat :: i <= |s| && OccursAt(s, sub, i)
  {
    if |sub| > |s| then
      false
    else if s[..|sub|] == sub then
      assert OccursAt(s, sub, 0);
      true
    else
      var rest := Includes(s[1..], sub);
      ShiftOccurrence(s, sub);
      rest
  }

  /** An occurrence in `s` other than at the front is an occurrence in `s[1..]`, one place earlier. */
  lemma ShiftOccurrence(s: string, sub: string)
    requires |s| > 0
    requires !OccursAt(s, sub, 0)
    ensures (exists i: nat :: i <= |s| && OccursAt(s, sub, i))
        <==> (exists i: nat :: i <= |s| - 1 && OccursAt(s[1..], sub, i))
  {
    forall i: nat | i <= |s| - 1
      ensures OccursAt(s[1..], sub, i) <==> OccursAt(s, sub, i + 1)
    {
      if i + |sub| <= |s| - 1 {
        assert s[1..][i..i + |sub|] == s[i + 1..i + 1 + |sub|];
      }
    }
    if exists i: nat :: i <= |s| && OccursAt(s, sub, i) {
      var i: nat :| i <= |s| && OccursAt(s, sub, i);
      assert i != 0;
      assert OccursAt(s[1..], sub, i - 1);
    }
  }

  // ---------------------------------------------------------------------------------------
  // Plain objects and method calls

  /** The members every plain object inherits from `Object.prototype` (section 20.1.3 of
      ECMAScript 2024, with the accessor helpers and `__proto__` of its Annex B). */
  const ObjectPrototypeMembers: set<string> := {
    "constructor", "hasOwnProperty", "isPrototypeOf", "propertyIsEnumerable", "toLocaleString",
    "toString", "valueOf", "__defineGetter__", "__defineSetter__", "__lookupGetter__",
    "__lookupSetter__", "__proto__"
  }

  /** A value stored in an own property: a scalar, an array of strings, or the value some call
      of an inherited method returned (which this model does not compute). */
  datatype PropValue = Scalar(v: JsValue) | Strings(items: seq<string>) | Returned(member: string)

  /** An object made by `{}` and property assignments: its own properties. */
  datatype JsObject = JsObject(own: map<string, PropValue>)

  /** `o.name = v`. */
  function SetProperty(o: JsObject, name: string, v: PropValue): JsObject
  {
    JsObject(o.own[name := v])
  }

  /** What `o.name` finds: an own property, a member inherited from `Object.prototype`, or nothing. */
  datatype Property = Own(value: PropValue) | Inherited(name: string) | Absent

  function GetProperty(o: JsObject, name: string): (p: Property)
    ensures p.Absent? <==> name !in o.own && name !in ObjectPrototypeMembers
  {
    if name in o.own then Own(o.own[name])
    else if name in ObjectPrototypeMembers then Inherited(name)
    else Absent
  }

  /** A property a call expression can apply: no stored value is a function here, and of the
      inherited members every one but `__proto__` (which is `null` on a plain object) is. */
  predicate IsCallable(p: Property)
  {
    p.Inherited? && p.name != "__proto__"
  }
}

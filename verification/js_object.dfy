/** Plain JavaScript object literals used as dictionaries: `obj[key]` on a
    literal such as `cityCoords` or `skillMap` finds an own entry, a member
    that every object inherits from `Object.prototype`, or nothing. */
module JsObject {
  import opened Text

  /** The names of the members of `Object.prototype`. Each is a function,
      except `__proto__`, which is the prototype object itself; all of them
      are truthy and none of them is an array. */
  const PrototypeMembers: set<string> := {
    "constructor", "__proto__",
    "__defineGetter__", "__defineSetter__", "__lookupGetter__", "__lookupSetter__",
    "hasOwnProperty", "isPrototypeOf", "propertyIsEnumerable",
    "toLocaleString", "toString", "valueOf"
  }

  /** The prototype members whose names are all lower case. */
  const LowerCaseMembers: set<string> := {"constructor", "__proto__"}

  /** What `obj[key]` yields on a literal with the entries `m`. */
  datatype Property<V> = Own(value: V) | Inherited | Absent

  function Get<V>(m: map<string, V>, key: string): Property<V> {
    if key in m then Own(m[key])
    else if key in PrototypeMembers then Inherited
    else Absent
  }

  /** Some character is an ASCII capital. */
  predicate HasCapital(s: string) {
    exists i :: 0 <= i < |s| && IsUpper(s[i])
  }

  /** Every prototype member outside `LowerCaseMembers` has a capital in its
      name. */
  lemma OtherMembersHaveCapitals()
    ensures forall k :: k in PrototypeMembers && k !in LowerCaseMembers ==> HasCapital(k)
  {
    assert IsUpper("__defineGetter__"[8]);
    assert IsUpper("__defineSetter__"[8]);
    assert IsUpper("__lookupGetter__"[8]);
    assert IsUpper("__lookupSetter__"[8]);
    assert IsUpper("hasOwnProperty"[3]);
    assert IsUpper("isPrototypeOf"[2]);
    assert IsUpper("propertyIsEnumerable"[8]);
    assert IsUpper("toLocaleString"[2]);
    assert IsUpper("toString"[2]);
    assert IsUpper("valueOf"[5]);
  }

  /** A lower-cased key reaches a prototype member exactly when it is
      `constructor` or `__proto__`. */
  lemma LowerCasedKeyReachesMember(s: string)
    ensures Lower(s) in PrototypeMembers <==> Lower(s) in LowerCaseMembers
  {
    OtherMembersHaveCapitals();
  }
}

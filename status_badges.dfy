/**
 * `statusColors[status] || fallback` on an object literal, as both dashboard tables look up a
 * badge class. A property lookup also finds what the object inherits from `Object.prototype`.
 */
module StatusBadges {

  /** The names an object literal inherits from `Object.prototype`. */
  const ObjectPrototypeMembers: set<string> := {
    "constructor", "hasOwnProperty", "isPrototypeOf", "propertyIsEnumerable",
    "toLocaleString", "toString", "valueOf", "__proto__",
    "__defineGetter__", "__defineSetter__", "__lookupGetter__", "__lookupSetter__"
  }

  /** A class string, or an inherited function/object that `||` lets through because it is truthy. */
  datatype ClassValue = Classes(classes: string) | InheritedMember(name: string)

  /** The lookup as written: own entries first, then inherited members, then the fallback. */
  function LookupAsWritten(table: map<string, string>, key: string, fallback: string): (v: ClassValue)
    ensures v.InheritedMember? <==> key !in table && key in ObjectPrototypeMembers
  {
    if key in table && table[key] != "" then Classes(table[key])
    else if key !in table && key in ObjectPrototypeMembers then InheritedMember(key)
    else Classes(fallback)
  }

  /** The intended lookup: the table's entry, or the fallback for any other status. */
  function Lookup(table: map<string, string>, key: string, fallback: string): (cls: string)
    ensures key in table && table[key] != "" ==> cls == table[key]
    ensures !(key in table && table[key] != "") ==> cls == fallback
  {
    if key in table && table[key] != "" then table[key] else fallback
  }

  /** The two agree on every status that is not the name of an inherited member. */
  lemma AgreeOffPrototype(table: map<string, string>, key: string, fallback: string)
    requires key !in ObjectPrototypeMembers
    ensures LookupAsWritten(table, key, fallback) == Classes(Lookup(table, key, fallback))
  {
  }
}

/** Daily analysis limits per plan. Both the analysis route and
    `checkCrawlingLimits` read them as `limits[userPlan] || 0` from the object
    literal `{ free: 0, basic: 50, standard: 100 }`, with `userPlan` taken from
    the request. */
module Plans {

  /** The plans the object literal lists itself, with their limits. */
  const OwnLimits: map<string, nat> := map["free" := 0, "basic" := 50, "standard" := 100]

  /** Members every object literal inherits from `Object.prototype`: reading
      one of them gives a function (or, for `__proto__`, an object), not a number. */
  const InheritedMembers: set<string> := {
    "constructor", "toString", "toLocaleString", "valueOf", "hasOwnProperty",
    "isPrototypeOf", "propertyIsEnumerable", "__proto__", "__defineGetter__",
    "__defineSetter__", "__lookupGetter__", "__lookupSetter__"
  }

  /** The value of `limits[userPlan] || 0`: a number, or a value that is not
      one (truthy, so `|| 0` keeps it). */
  datatype LimitValue = Number(n: nat) | NonNumeric

  function LimitOrZero(plan: string): (r: LimitValue)
    ensures plan in OwnLimits ==> r == Number(OwnLimits[plan])
    ensures plan !in OwnLimits && plan !in InheritedMembers ==> r == Number(0)
    ensures r.NonNumeric? <==> plan in InheritedMembers
  {
    if plan in OwnLimits then Number(OwnLimits[plan])
    else if plan in InheritedMembers then NonNumeric
    else Number(0)
  }

  /** `todayUsage >= limit`: a comparison with a value that is not a number
      converts it to NaN and is false. */
  predicate UsageReached(todayUsage: int, limit: LimitValue) {
    limit.Number? && todayUsage >= limit.n
  }

  /** The limit an own-property lookup gives (`Object.hasOwn(limits, userPlan)`),
      unknown plans getting 0. */
  function OwnLimit(plan: string): (r: nat)
    ensures plan in OwnLimits ==> r == OwnLimits[plan]
    ensures plan !in OwnLimits ==> r == 0
  {
    if plan in OwnLimits then OwnLimits[plan] else 0
  }

  /** For every plan name that is not an inherited member, the two lookups agree. */
  lemma LookupsAgree(plan: string)
    requires plan !in InheritedMembers
    ensures LimitOrZero(plan) == Number(OwnLimit(plan))
  {
  }
}

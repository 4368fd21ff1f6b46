/** `createAdminSchema`: the form for a new administrator account. */
module AdminUserSchema {
  import opened Common
  import opened Zod

  const Roles: seq<string> := ["org_admin", "manager"]

  const Shape: Zod.Shape := map[
    "email" := Required(EmailText),
    "password" := Required(Text(8)),
    "name" := Required(Text(1)),
    "role" := Defaulted(OneOf(Roles), Str("manager"))]

  lemma ShapeEntries()
    ensures Shape.Keys == {"email", "password", "name", "role"}
    ensures Shape["email"] == Required(EmailText) && Shape["password"] == Required(Text(8))
    ensures Shape["name"] == Required(Text(1)) && Shape["role"] == Defaulted(OneOf(Roles), Str("manager"))
  {
  }

  /** An e-mail address as zod's pattern has it, a password of at least eight characters, a non-empty name, and a role among the two or none. */
  predicate Valid(o: JsonObject, isEmail: string -> bool) {
    HasEmail(o, "email", isEmail) && HasText(o, "password", 8) && HasText(o, "name", 1) && OptionOrAbsent(o, "role", Roles)
  }

  /**
   * `createAdminSchema.safeParse(o)`, with `isEmail` for zod's e-mail pattern:
   * accepted exactly when valid; the given keys come out as given, a missing
   * role comes out "manager", and the output holds no key outside the four.
   */
  function ParseAdmin(o: JsonObject, isEmail: string -> bool): (r: Option<JsonObject>)
    ensures r.Some? <==> Valid(o, isEmail)
    ensures r.Some? ==> r.value.Keys <= Shape.Keys
    ensures r.Some? && "role" !in o ==> "role" in r.value && r.value["role"] == Str("manager")
    ensures r.Some? ==> forall k :: k in o && k in Shape ==> k in r.value && r.value[k] == o[k]
  {
    ShapeEntries();
    RequiredEmail(o, "email", isEmail);
    RequiredText(o, "password", 8, isEmail);
    RequiredText(o, "name", 1, isEmail);
    DefaultedOption(o, "role", Roles, "manager", isEmail);
    Parse(Shape, o, isEmail)
  }
}

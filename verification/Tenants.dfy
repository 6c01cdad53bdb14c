/** tenant/directory.go: decoding a verified tenant directory. */
module Tenants {
  import opened Basics
  import opened PacketTypes
  import opened CanonicalJson
  import opened StructJson
  import Envelopes

  const SCHEMA := "martcoca.identity.tenant-directory/1"

  datatype Tenant = Tenant(
    id: string, slug: string, displayName: string, status: string, createdAt: string, version: nat)

  const NAMES := ["id", "slug", "display_name", "status", "created_at", "version"]

  const PLAIN: set<string> := set k | k in NAMES

  const INT64 := 0x8000_0000_0000_0000

  // The version is an int64, of which only those above zero are valid.
  function ReadTenant(v: Json): Option<Tenant> {
    var f := ReadStruct(v, NAMES, PLAIN);
    if f.None? then None
    else
      var id, slug, displayName := Text(f.value[0]), Text(f.value[1]), Text(f.value[2]);
      var status, createdAt, version := Text(f.value[3]), Text(f.value[4]), Unsigned(f.value[5], INT64);
      if id.None? || slug.None? || displayName.None? || status.None? || createdAt.None? || version.None? then None
      else Some(Tenant(id.value, slug.value, displayName.value, status.value, createdAt.value, version.value))
  }

  predicate ValidTenant(t: Tenant, rules: Envelopes.Rules) {
    && !Blank(t.id) && !Blank(t.slug) && !Blank(t.displayName) && t.status in {"active", "suspended", "retired"}
    && rules.parse(t.createdAt).Some? && t.version >= 1
  }

  /** fromEnvelope: the tenants of a canonical payload, all valid and no id twice. */
  function Parse(payload: string, rules: Envelopes.Rules): (tenants: Option<seq<Tenant>>)
    ensures tenants.Some? ==>
              && (forall i :: 0 <= i < |tenants.value| ==> ValidTenant(tenants.value[i], rules))
              && forall i, j :: 0 <= i < j < |tenants.value| ==> tenants.value[i].id != tenants.value[j].id
  {
    var read :=
      match Decode(payload)
      case Some(Null) => Some([])
      case Some(Arr(items)) => ReadAll(items, ReadTenant)
      case _ => None;
    if read.None? then None
    else
      var tenants := read.value;
      if (forall i :: 0 <= i < |tenants| ==> ValidTenant(tenants[i], rules))
         && (forall i, j :: 0 <= i < j < |tenants| ==> tenants[i].id != tenants[j].id)
      then Some(tenants) else None
  }
}

/** Validation of client metadata documents (src/cimd.rs). */
module Documents {
  import opened Prelude
  import opened Ordering
  import opened Policy

  datatype Json = Text(value: string) | Many(items: seq<Json>) | Other(json: string)

  /** Verdicts on display names and on redirect URIs. */
  datatype Vetting = Vetting(name: string -> bool, redirect: string -> bool)

  const MAX_REDIRECTS: nat := 16

  const CODE_GRANT := Text("authorization_code")
  const REFRESH_GRANT := Text("refresh_token")

  const SECRET_FIELDS: set<string> := {"client_secret", "client_secret_expires_at", "jwks", "jwks_uri"}

  // ---- what a document must say ----

  /** Absent, or the code grant with or without the refresh grant, in either order. */
  predicate GrantTypesConform(field: Option<Json>) {
    field.None? || field.value in {Many([CODE_GRANT]), Many([CODE_GRANT, REFRESH_GRANT]),
                                   Many([REFRESH_GRANT, CODE_GRANT])}
  }

  predicate IsVettedText(item: Json, vet: Vetting) {
    item.Text? && vet.redirect(item.value)
  }

  predicate RedirectsConform(field: Option<Json>, vet: Vetting) {
    && field.Some? && field.value.Many?
    && var items := field.value.items;
       && 1 <= |items| <= MAX_REDIRECTS
       && (forall i | 0 <= i < |items| :: IsVettedText(items[i], vet))
       && (forall i, j | 0 <= i < j < |items| :: items[i] != items[j])
  }

  function Field(document: map<string, Json>, name: string): Option<Json> {
    if name in document then Some(document[name]) else None
  }

  predicate Conforms(clientId: string, document: map<string, Json>, vet: Vetting) {
    && Field(document, "client_id") == Some(Text(clientId))
    && Field(document, "client_name").Some? && Field(document, "client_name").value.Text?
    && vet.name(Field(document, "client_name").value.value)
    && (forall name | name in SECRET_FIELDS :: name !in document)
    && Field(document, "token_endpoint_auth_method") == Some(Text("none"))
    && GrantTypesConform(Field(document, "grant_types"))
    && (Field(document, "response_types").None? || Field(document, "response_types") == Some(Many([Text("code")])))
    && RedirectsConform(Field(document, "redirect_uris"), vet)
  }

  predicate AsksForRefresh(document: map<string, Json>) {
    Field(document, "grant_types").Some? && Field(document, "grant_types").value.Many?
    && REFRESH_GRANT in Field(document, "grant_types").value.items
  }

  // ---- validation as the source performs it ----

  method CheckGrantTypes(field: Option<Json>) returns (refreshAllowed: Option<bool>)
    ensures refreshAllowed.Some? <==> GrantTypesConform(field)
    ensures refreshAllowed.Some? ==> (refreshAllowed.value <==> field.Some? && REFRESH_GRANT in field.value.items)
  {
    if field.None? {
      return Some(false);
    }
    if !field.value.Many? {
      return None;
    }
    var grants := field.value.items;
    if grants == [] || |grants| > 2 || (|grants| == 2 && grants[0] == grants[1])
       || (exists g | g in grants :: g != CODE_GRANT && g != REFRESH_GRANT)
       || CODE_GRANT !in grants {
      return None;
    }
    assert grants[0] in grants && grants[|grants| - 1] in grants;
    assert field.value == Many(if |grants| == 1 then [grants[0]] else [grants[0], grants[1]]);
    return Some(REFRESH_GRANT in grants);
  }

  method CollectRedirects(items: seq<Json>, vet: Vetting) returns (redirects: Option<seq<string>>)
    ensures redirects.Some? <==> && (forall i | 0 <= i < |items| :: IsVettedText(items[i], vet))
                                 && (forall i, j | 0 <= i < j < |items| :: items[i] != items[j])
    ensures redirects.Some? ==> |redirects.value| == |items| && Distinct(redirects.value)
                                && forall i | 0 <= i < |items| :: items[i] == Text(redirects.value[i])
  {
    var collected := [];
    for k := 0 to |items|
      invariant |collected| == k && Distinct(collected)
      invariant forall i | 0 <= i < k :: items[i] == Text(collected[i]) && IsVettedText(items[i], vet)
      invariant forall i, j | 0 <= i < j < k :: items[i] != items[j]
    {
      if !items[k].Text? || !vet.redirect(items[k].value) {
        assert !IsVettedText(items[k], vet);
        return None;
      }
      if items[k].value in collected {
        var i :| 0 <= i < k && collected[i] == items[k].value;
        assert items[i] == items[k];
        return None;
      }
      collected := collected + [items[k].value];
    }
    return Some(collected);
  }

  /** A document is accepted exactly if it conforms; what is accepted names the requested client, has
      distinct redirects, and allows refresh only if it asks for it. */
  method ValidateDocument(clientId: string, document: map<string, Json>, vet: Vetting)
    returns (accepted: Option<Document>)
    ensures accepted.Some? <==> Conforms(clientId, document, vet)
    ensures accepted.Some? ==>
              && Accepted(accepted.value, clientId)
              && (accepted.value.refreshAllowed <==> AsksForRefresh(document))
              && document["redirect_uris"].items == Texts(accepted.value.redirectUris)
              && document["client_name"] == Text(accepted.value.clientName)
  {
    var id, name := Field(document, "client_id"), Field(document, "client_name");
    if id.None? || !id.value.Text? || name.None? || !name.value.Text? || id.value.value != clientId
       || !vet.name(name.value.value) {
      return None;
    }
    if "client_secret" in document || "client_secret_expires_at" in document || "jwks" in document
       || "jwks_uri" in document {
      return None;
    }
    if Field(document, "token_endpoint_auth_method") != Some(Text("none")) {
      return None;
    }
    var refreshAllowed := CheckGrantTypes(Field(document, "grant_types"));
    if refreshAllowed.None? {
      return None;
    }
    var responses := Field(document, "response_types");
    if responses.Some?
       && (!responses.value.Many? || |responses.value.items| != 1 || responses.value.items[0] != Text("code")) {
      return None;
    }
    assert responses.Some? ==> responses.value.items == [Text("code")];
    var redirects := Field(document, "redirect_uris");
    if redirects.None? || !redirects.value.Many? || redirects.value.items == []
       || |redirects.value.items| > MAX_REDIRECTS {
      return None;
    }
    var collected := CollectRedirects(redirects.value.items, vet);
    if collected.None? {
      return None;
    }
    return Some(Document(clientId, name.value.value, collected.value, refreshAllowed.value));
  }

  function Texts(values: seq<string>): (r: seq<Json>)
    ensures |r| == |values| && forall i | 0 <= i < |r| :: r[i] == Text(values[i])
  {
    seq(|values|, i requires 0 <= i < |values| => Text(values[i]))
  }

  predicate Accepted(document: Document, clientId: string) {
    document.clientId == clientId && 1 <= |document.redirectUris| <= MAX_REDIRECTS && Distinct(document.redirectUris)
  }

  /** Of accepted documents, the stored binding identifies exactly the client, its set of redirects
      and its effective refresh permission. */
  lemma AcceptedDocumentsAreIdentified(a: Document, idA: string, b: Document, idB: string, allowA: bool, allowB: bool)
    requires Accepted(a, idA) && Accepted(b, idB)
    ensures SecurityBinding(a, allowA) == SecurityBinding(b, allowB) <==>
            idA == idB && Elements(a.redirectUris) == Elements(b.redirectUris)
            && (a.refreshAllowed && allowA) == (b.refreshAllowed && allowB)
  {
    BindingIdentity(a, b, allowA, allowB);
  }
}

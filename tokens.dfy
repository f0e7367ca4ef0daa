/** The integration tokens panel: creating, deleting, and choosing the
    permissions of the next token. */
module TokensPanel {
  import opened Common
  import opened Document
  import opened ListOps

  const TokenPrefix := "int_"
  const DefaultPermissions: seq<string> := ["read"]

  datatype IntegrationToken = IntegrationToken(
    id: string,
    name: string,
    token: string,
    permissions: seq<string>,
    createdAt: Timestamp)

  function TokenId(t: IntegrationToken): string { t.id }

  /** The panel's state: the tokens and the new-token inputs. */
  datatype Panel = Panel(tokens: seq<IntegrationToken>, newTokenName: string, newTokenPermissions: seq<string>)

  function NotDash(c: char): bool { c != '-' }

  /** `uuid.replace(/-/g, '')` */
  function RemoveDashes(s: string): (r: string)
    ensures '-' !in r
    ensures forall c :: c in r <==> c in s && c != '-'
  {
    var r := Filter(s, NotDash);
    forall c ensures c in r <==> c in s && c != '-' {
      FilterMembership(s, NotDash, c);
    }
    r
  }

  /** `handleCreateToken()`: `id` and `secret` are the two uuids drawn. The
      boolean says whether the "Please enter a token name" error is shown. */
  function CreateToken(p: Panel, id: string, secret: string, now: Timestamp): (r: (Panel, bool))
    ensures r.1 <==> IsBlank(p.newTokenName)
    ensures r.1 ==> r.0 == p
    ensures !r.1 ==>
      r.0.tokens == p.tokens + [IntegrationToken(id, p.newTokenName, TokenPrefix + RemoveDashes(secret), p.newTokenPermissions, now)] &&
      r.0.newTokenName == "" && r.0.newTokenPermissions == DefaultPermissions
  {
    if IsBlank(p.newTokenName) then (p, true)
    else
      var t := IntegrationToken(id, p.newTokenName, TokenPrefix + RemoveDashes(secret), p.newTokenPermissions, now);
      (Panel(p.tokens + [t], "", DefaultPermissions), false)
  }

  /** A created token's secret is `int_` and a dash-free rest. */
  lemma TokenShape(p: Panel, id: string, secret: string, now: Timestamp)
    requires !IsBlank(p.newTokenName)
    ensures var ts := CreateToken(p, id, secret, now).0.tokens;
      var t := ts[|ts| - 1];
      StartsWith(t.token, TokenPrefix) && '-' !in t.token[|TokenPrefix|..] && t.permissions == p.newTokenPermissions
  {
    var ts := CreateToken(p, id, secret, now).0.tokens;
    var t := ts[|ts| - 1];
    assert t.token[..|TokenPrefix|] == TokenPrefix;
    assert t.token[|TokenPrefix|..] == RemoveDashes(secret);
  }

  /** `handleDeleteToken(id)` */
  function DeleteToken(p: Panel, id: string): (r: Panel)
    ensures r.newTokenName == p.newTokenName && r.newTokenPermissions == p.newTokenPermissions
    ensures forall t :: t in r.tokens <==> t in p.tokens && t.id != id
    ensures multiset(r.tokens) <= multiset(p.tokens)
  {
    var ts := RemoveKey(p.tokens, TokenId, id);
    forall t ensures t in ts <==> t in p.tokens && t.id != id {
      FilterMembership(p.tokens, LacksKey(TokenId, id), t);
      assert LacksKey(TokenId, id)(t) == (TokenId(t) != id);
    }
    p.(tokens := ts)
  }

  /** `togglePermission(permission)` */
  function TogglePermission(p: Panel, permission: string): (r: Panel)
    ensures r.tokens == p.tokens && r.newTokenName == p.newTokenName
    ensures permission in r.newTokenPermissions <==> permission !in p.newTokenPermissions
    ensures permission !in p.newTokenPermissions ==> r.newTokenPermissions == p.newTokenPermissions + [permission]
    ensures forall q :: q != permission ==> (q in r.newTokenPermissions <==> q in p.newTokenPermissions)
  {
    var ps := ToggleMember(p.newTokenPermissions, permission);
    forall q | q != permission ensures q in ps <==> q in p.newTokenPermissions {
      if permission in p.newTokenPermissions {
        if q in p.newTokenPermissions {
          var i :| 0 <= i < |p.newTokenPermissions| && p.newTokenPermissions[i] == q;
        }
        if q in ps {
          var i :| 0 <= i < |ps| && ps[i] == q;
        }
      }
    }
    p.(newTokenPermissions := ps)
  }

  /** Toggling a permission twice leaves the same permissions selected. */
  lemma PermissionTwice(p: Panel, permission: string, q: string)
    ensures q in TogglePermission(TogglePermission(p, permission), permission).newTokenPermissions <==> q in p.newTokenPermissions
  {
    ToggleTwice(p.newTokenPermissions, permission, q);
  }
}

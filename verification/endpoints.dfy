/** A representative part of the remote-operation catalogue: each wrapper maps
    its arguments to an HTTP method, a path, query parameters and a JSON body.
    The path strings are a contract with the backend, so each wrapper's contract states
    their '/'-separated segments: the static segments, where the caller's id
    lands, and the empty last segment that a trailing slash leaves. */
module Endpoints {
  import opened WebStorage

  datatype HttpMethod = Get | Post | Patch | Delete

  /** A flat JSON object with string fields. */
  type Json = map<string, string>

  /** What one wrapper hands to the HTTP client: `body` is None when the call
      sends no body at all, which differs from sending `{}`. */
  datatype Request = Request(verb: HttpMethod, path: string, params: Json, body: Option<Json>)

  /** A JavaScript default parameter: the default applies when the argument
      is omitted (`undefined`, here None). */
  function OrDefault(arg: Option<string>, default: string): string {
    if arg.Some? then arg.value else default
  }

  /** A field of an object literal: JSON serialization drops a field whose
      value is `undefined`. */
  function Field(key: string, value: Option<string>): Json {
    if value.Some? then map[key := value.value] else map[]
  }

  // ----- Path segments -----

  /** The '/'-separated segments of a path; `Split("/a/")` is `["", "a", ""]`. */
  function Split(s: string): (r: seq<string>)
    ensures |r| >= 1
    decreases |s|
  {
    if |s| == 0 then [""]
    else if s[0] == '/' then [""] + Split(s[1..])
    else
      var t := Split(s[1..]);
      [[s[0]] + t[0]] + t[1..]
  }

  /** A string without '/' is a single segment. */
  lemma {:induction false} SplitNoSlash(a: string)
    requires '/' !in a
    ensures Split(a) == [a]
  {
    if |a| > 0 {
      SplitNoSlash(a[1..]);
      assert [a[0]] + a[1..] == a;
    }
  }

  /** Joining two strings with '/' concatenates their segments. */
  lemma {:induction false} SplitSlash(a: string, b: string)
    ensures Split(a + "/" + b) == Split(a) + Split(b)
  {
    if |a| == 0 {
      assert a + "/" + b == "/" + b;
      assert ("/" + b)[1..] == b;
    } else {
      assert (a + "/" + b)[1..] == a[1..] + "/" + b;
      SplitSlash(a[1..], b);
    }
  }

  lemma SplitSegment(a: string, rest: string)
    requires '/' !in a
    ensures Split(a + "/" + rest) == [a] + Split(rest)
  {
    SplitSlash(a, rest);
    SplitNoSlash(a);
  }

  /** The root every super-admin route starts with. */
  const ApiPrefix := "/superAdmin/api/"

  /** `/a/b/rest` */
  lemma SplitRoot(a: string, b: string, rest: string)
    requires '/' !in a && '/' !in b
    ensures Split("/" + a + "/" + b + "/" + rest) == ["", a, b] + Split(rest)
  {
    var s1 := b + "/" + rest;
    var s0 := a + "/" + s1;
    assert "/" + a + "/" + b + "/" + rest == "" + "/" + s0;
    SplitSegment(b, rest);
    SplitSegment(a, s1);
    SplitSegment("", s0);
  }

  lemma ApiPrefixParts()
    ensures ApiPrefix == "/" + "superAdmin" + "/" + "api" + "/"
    ensures '/' !in "superAdmin" && '/' !in "api"
  {
  }

  /** The segments of `ApiPrefix + rest`. */
  lemma SplitApi(rest: string)
    ensures Split(ApiPrefix + rest) == ["", "superAdmin", "api"] + Split(rest)
  {
    ApiPrefixParts();
    SplitRoot("superAdmin", "api", rest);
  }

  /** `resource/` */
  lemma SplitCollection(resource: string)
    requires '/' !in resource
    ensures Split(resource + "/") == [resource, ""]
  {
    assert resource + "/" == resource + "/" + "";
    SplitSegment(resource, "");
    SplitNoSlash("");
  }

  /** `resource/{id}/` */
  lemma SplitItem(resource: string, id: string)
    requires '/' !in resource
    ensures Split(resource + "/" + id + "/") == [resource] + Split(id) + [""]
  {
    var s1 := id + "/" + "";
    assert resource + "/" + id + "/" == resource + "/" + s1;
    SplitSlash(id, "");
    SplitNoSlash("");
    SplitSegment(resource, s1);
  }

  /** `resource/{id}/action/` */
  lemma SplitAction(resource: string, id: string, action: string)
    requires '/' !in resource && '/' !in action
    ensures Split(resource + "/" + id + "/" + action + "/") == [resource] + Split(id) + [action, ""]
  {
    var s2 := action + "/" + "";
    var s1 := id + "/" + s2;
    assert resource + "/" + id + "/" + action + "/" == resource + "/" + s1;
    SplitSegment(action, "");
    SplitNoSlash("");
    SplitSlash(id, s2);
    SplitSegment(resource, s1);
  }

  /** `ApiPrefix + resource/{id}/` */
  lemma SplitApiItem(resource: string, id: string)
    requires '/' !in resource
    ensures Split(ApiPrefix + resource + "/" + id + "/") == ["", "superAdmin", "api", resource] + Split(id) + [""]
  {
    assert ApiPrefix + resource + "/" + id + "/" == ApiPrefix + (resource + "/" + id + "/");
    SplitApi(resource + "/" + id + "/");
    SplitItem(resource, id);
  }

  /** `ApiPrefix + resource/{id}/action/` */
  lemma SplitApiAction(resource: string, id: string, action: string)
    requires '/' !in resource && '/' !in action
    ensures Split(ApiPrefix + resource + "/" + id + "/" + action + "/") ==
            ["", "superAdmin", "api", resource] + Split(id) + [action, ""]
  {
    var rest := resource + "/" + id + "/" + action + "/";
    assert ApiPrefix + resource + "/" + id + "/" + action + "/" == ApiPrefix + rest;
    SplitApi(rest);
    SplitAction(resource, id, action);
  }

  /** A URL cut at its first '?': the path, and the query string when there is one. */
  function SplitQuery(url: string): (r: (string, Option<string>))
    decreases |url|
  {
    if |url| == 0 then ("", None)
    else if url[0] == '?' then ("", Some(url[1..]))
    else
      var (p, q) := SplitQuery(url[1..]);
      ([url[0]] + p, q)
  }

  lemma {:induction false} SplitQueryAt(path: string, query: string)
    requires '?' !in path
    ensures SplitQuery(path + "?" + query) == (path, Some(query))
  {
    if |path| == 0 {
      assert path + "?" + query == "?" + query;
      assert ("?" + query)[1..] == query;
    } else {
      assert (path + "?" + query)[1..] == path[1..] + "?" + query;
      SplitQueryAt(path[1..], query);
      assert [path[0]] + path[1..] == path;
    }
  }

  // ----- Wrappers -----
  // Each wrapper's contract states what it sends: the verb, the path's
  // `/`-separated segments for any id, the query parameters and the body.

  /** `adminLogin`'s request: posts exactly `{username, password}` to
      `/superAdmin/api/admin-login/`. */
  function AdminLoginRequest(username: string, password: string): (r: Request)
    ensures r.verb == Post
    ensures Split(r.path) == ["", "superAdmin", "api", "admin-login", ""]
    ensures r.params == map[]
    ensures r.body == Some(map["username" := username, "password" := password])
  {
    assert ApiPrefix + "admin-login/" == ApiPrefix + ("admin-login" + "/");
    SplitApi("admin-login" + "/");
    SplitCollection("admin-login");
    Request(Post, ApiPrefix + "admin-login/", map[], Some(map["username" := username, "password" := password]))
  }

  /** `approveVendorRequest(id, reason = "")`: posts `{reason}` to
      `.../vendor-requests/{id}/approve/`, with `reason` defaulting to `""`. */
  function ApproveVendorRequest(id: string, reason: Option<string>): (r: Request)
    ensures r.verb == Post
    ensures Split(r.path) == ["", "superAdmin", "api", "vendor-requests"] + Split(id) + ["approve", ""]
    ensures r.params == map[]
    ensures r.body == Some(map["reason" := if reason.Some? then reason.value else ""])
  {
    SplitApiAction("vendor-requests", id, "approve");
    Request(Post, ApiPrefix + "vendor-requests" + "/" + id + "/" + "approve" + "/", map[], Some(map["reason" := OrDefault(reason, "")]))
  }

  /** `rejectVendorRequest(id, reason)`: posts to `.../vendor-requests/{id}/reject/`;
      `reason` has no default, so an omitted one leaves the body an empty object. */
  function RejectVendorRequest(id: string, reason: Option<string>): (r: Request)
    ensures r.verb == Post
    ensures Split(r.path) == ["", "superAdmin", "api", "vendor-requests"] + Split(id) + ["reject", ""]
    ensures r.params == map[]
    ensures r.body == Some(if reason.Some? then map["reason" := reason.value] else map[])
  {
    SplitApiAction("vendor-requests", id, "reject");
    Request(Post, ApiPrefix + "vendor-requests" + "/" + id + "/" + "reject" + "/", map[], Some(Field("reason", reason)))
  }

  /** `fetchAllProducts(params = {})`: GETs `/superAdmin/api/products/` with the
      caller's query parameters, or none. */
  function FetchAllProducts(params: Option<Json>): (r: Request)
    ensures r.verb == Get
    ensures Split(r.path) == ["", "superAdmin", "api", "products", ""]
    ensures r.params == if params.Some? then params.value else map[]
    ensures r.body == None
  {
    assert ApiPrefix + "products/" == ApiPrefix + ("products" + "/");
    SplitApi("products" + "/");
    SplitCollection("products");
    Request(Get, ApiPrefix + "products/", if params.Some? then params.value else map[], None)
  }

  /** `fetchProductsByVendor(vendorId)`: asks for the same resource as
      `fetchAllProducts`, with the filter `vendor_id=v` written into the URL's
      query string instead of `params`. */
  function FetchProductsByVendor(vendorId: string): (r: Request)
    ensures r.verb == Get
    ensures SplitQuery(r.path) == (FetchAllProducts(None).path, Some("vendor_id=" + vendorId))
    ensures r.params == map[]
    ensures r.body == None
  {
    var path := ApiPrefix + "products/";
    assert ApiPrefix + "products/?vendor_id=" + vendorId == path + "?" + ("vendor_id=" + vendorId);
    assert '?' !in ApiPrefix && '?' !in "products/";
    SplitQueryAt(path, "vendor_id=" + vendorId);
    Request(Get, ApiPrefix + "products/?vendor_id=" + vendorId, map[], None)
  }

  /** `unblockDeliveryAgent(id)`: posts an empty object to
      `.../delivery-agents/{id}/unblock/`. */
  function UnblockDeliveryAgent(id: string): (r: Request)
    ensures r.verb == Post
    ensures Split(r.path) == ["", "superAdmin", "api", "delivery-agents"] + Split(id) + ["unblock", ""]
    ensures r.params == map[]
    ensures r.body == Some(map[])
  {
    SplitApiAction("delivery-agents", id, "unblock");
    Request(Post, ApiPrefix + "delivery-agents" + "/" + id + "/" + "unblock" + "/", map[], Some(map[]))
  }

  /** `deleteCategoryCommission(id)`: sends DELETE, without a body, to
      `.../commission-settings/{id}/`. */
  function DeleteCategoryCommission(id: string): (r: Request)
    ensures r.verb == Delete
    ensures Split(r.path) == ["", "superAdmin", "api", "commission-settings"] + Split(id) + [""]
    ensures r.params == map[]
    ensures r.body == None
  {
    SplitApiItem("commission-settings", id);
    Request(Delete, ApiPrefix + "commission-settings" + "/" + id + "/", map[], None)
  }

  /** `toggleUserBlock(userId, action, reason = "")`: posts `{action, reason}` to
      `.../users/{id}/toggle-block/`, with `reason` defaulting to `""` and an
      omitted `action` left out of the body. */
  function ToggleUserBlock(userId: string, action: Option<string>, reason: Option<string>): (r: Request)
    ensures r.verb == Post
    ensures Split(r.path) == ["", "superAdmin", "api", "users"] + Split(userId) + ["toggle-block", ""]
    ensures r.params == map[]
    ensures r.body ==
              var why := if reason.Some? then reason.value else "";
              Some(if action.Some? then map["action" := action.value, "reason" := why] else map["reason" := why])
  {
    var why := OrDefault(reason, "");
    assert action.Some? ==> map["action" := action.value] + map["reason" := why] == map["action" := action.value, "reason" := why];
    assert action.None? ==> map[] + map["reason" := why] == map["reason" := why];
    SplitApiAction("users", userId, "toggle-block");
    Request(Post, ApiPrefix + "users" + "/" + userId + "/" + "toggle-block" + "/", map[],
            Some(Field("action", action) + map["reason" := why]))
  }

  /** `processRefund(id)`: posts no body to `.../order-returns/{id}/process_refund/`. */
  function ProcessRefund(id: string): (r: Request)
    ensures r.verb == Post
    ensures Split(r.path) == ["", "superAdmin", "api", "order-returns"] + Split(id) + ["process_refund", ""]
    ensures r.params == map[]
    ensures r.body == None
  {
    SplitApiAction("order-returns", id, "process_refund");
    Request(Post, ApiPrefix + "order-returns" + "/" + id + "/" + "process_refund" + "/", map[], None)
  }
}

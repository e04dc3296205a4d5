/** The root layout: every page sits inside the cart store, and the site header and footer are
    left off a fixed list of routes. */
module Layout {

  /** The routes drawn without header and footer. */
  const NoLayoutPages: seq<string> := [
    "/login", "/cart", "/menu", "/checkout", "/confirmation",
    "/Admin", "/payment-transfer", "/payment-success", "/order-success", "/Admin/dashboard"]

  /** `Array.prototype.includes` on strings: exact, case-sensitive equality with some element. */
  function Includes(list: seq<string>, x: string): (r: bool)
    ensures r <==> x in list
  {
    if list == [] then false
    else list[0] == x || Includes(list[1..], x)
  }

  /** `hideLayout`: the pathname is one of the listed routes, character for character. */
  function HideLayout(pathname: string): (r: bool)
    ensures r <==> exists i :: 0 <= i < |NoLayoutPages| && NoLayoutPages[i] == pathname
  {
    Includes(NoLayoutPages, pathname)
  }

  /** What wraps a page. */
  datatype Frame = Frame(cartProvider: bool, header: bool, footer: bool)

  function LayoutFrame(pathname: string): (f: Frame)
    ensures f.cartProvider
    ensures f.header <==> !HideLayout(pathname)
    ensures f.footer <==> f.header
  {
    Frame(true, !HideLayout(pathname), !HideLayout(pathname))
  }

  /** Matching is exact: a different case, a trailing slash or a sub-path still gets the
      header and footer, while the listed routes themselves do not. */
  lemma ExactMatchOnly(lower: string, slash: string, sub: string, admin: string)
    requires lower == "/admin" && slash == "/cart/" && sub == "/menu/x" && admin == "/Admin"
    ensures LayoutFrame(lower).header && LayoutFrame(slash).header && LayoutFrame(sub).header
    ensures !LayoutFrame(admin).header
  {
    assert NoLayoutPages[5] == admin;
    forall i | 0 <= i < |NoLayoutPages| ensures NoLayoutPages[i] != lower {
      if |NoLayoutPages[i]| == |lower| {
        assert NoLayoutPages[i][1] != lower[1];
      }
    }
    forall i | 0 <= i < |NoLayoutPages| ensures NoLayoutPages[i] != slash {
      if |NoLayoutPages[i]| == |slash| {
        assert NoLayoutPages[i][5] != slash[5];
      }
    }
    forall i | 0 <= i < |NoLayoutPages| ensures NoLayoutPages[i] != sub {
      assert |NoLayoutPages[i]| != |sub|;
    }
  }
}

// The context and template-name rewriting of `MakoBridge.render`
// (doc/build/builder/builders.py), with the render context as the mutable
// dictionary the source hands down to Mako.

module MakoTemplates {

  /** The values a render context holds, as far as the bridge cares: Python's
      `None`, a string, the identity function `lambda x: x` it installs as
      `_`, and any other object, told apart by an identifier. */
  datatype Value = NoneValue | Text(s: string) | Identity | Opaque(id: nat)

  /** `s` begins with `.html`, character by character. */
  predicate HtmlAt(s: string)
  {
    |s| >= 5 && s[0] == '.' && s[1] == 'h' && s[2] == 't' && s[3] == 'm' && s[4] == 'l'
  }

  /** `template.replace(".html", ".mako")`: one left-to-right scan replacing
      each occurrence. Both strings have five characters, so the length is
      kept. */
  function ReplaceHtml(s: string): (r: string)
    ensures |r| == |s|
    decreases |s|
  {
    if s == [] then []
    else if HtmlAt(s) then ".mako" + ReplaceHtml(s[5..])
    else [s[0]] + ReplaceHtml(s[1..])
  }

  /** The first character survives: both `.html` and `.mako` start with a dot. */
  lemma ReplaceHtmlHead(s: string)
    requires |s| > 0
    ensures ReplaceHtml(s)[0] == s[0]
  {
  }

  /** A prefix without dots is copied and the scan resumes behind it. */
  lemma {:induction false} ReplaceHtmlCopiesUndotted(s: string, n: nat)
    requires n <= |s| && forall k :: 0 <= k < n ==> s[k] != '.'
    ensures ReplaceHtml(s) == s[..n] + ReplaceHtml(s[n..])
    decreases n
  {
    if n > 0 {
      assert s[0] != '.' && !HtmlAt(s);
      ReplaceHtmlCopiesUndotted(s[1..], n - 1);
      assert s[1..][..n - 1] == s[1..n] && s[1..][n - 1..] == s[n..];
      assert [s[0]] + s[1..n] == s[..n];
    }
  }

  /** Up to and including the first dot, the name is copied. */
  lemma AgreesThroughFirstDot(s: string, n: nat)
    requires n < |s| && forall k :: 0 <= k < n ==> s[k] != '.'
    ensures ReplaceHtml(s)[..n + 1] == s[..n + 1]
  {
    ReplaceHtmlCopiesUndotted(s, n);
    ReplaceHtmlHead(s[n..]);
    var r := ReplaceHtml(s);
    assert r == s[..n] + ReplaceHtml(s[n..]);
    assert r[n] == s[n];
    assert r[..n + 1] == s[..n] + [r[n]];
    assert s[..n + 1] == s[..n] + [s[n]];
  }

  /** A name starting with a dot but not with `.html` keeps its first
      `n + 2` characters, where `n + 1` is the position of the next dot
      (or 4). */
  lemma CopiedDotStart(s: string, n: nat)
    requires |s| >= 5 && s[0] == '.' && !HtmlAt(s) && n <= 3
    requires forall k :: 1 <= k <= n ==> s[k] != '.'
    requires n == 3 || s[n + 1] == '.'
    ensures !HtmlAt(ReplaceHtml(s))
  {
    var r := ReplaceHtml(s);
    var t := s[1..];
    assert r == [s[0]] + ReplaceHtml(t);
    forall k | 0 <= k < n ensures t[k] != '.' {
      assert t[k] == s[k + 1];
    }
    AgreesThroughFirstDot(t, n);
    assert r[..n + 2] == [s[0]] + ReplaceHtml(t)[..n + 1];
    assert s[..n + 2] == [s[0]] + t[..n + 1];
  }

  /** Where the scan copies a character, it does not create `.html`. */
  lemma NoHtmlAtCopiedStart(s: string)
    requires |s| > 0 && !HtmlAt(s)
    ensures !HtmlAt(ReplaceHtml(s))
  {
    if s[0] != '.' {
      ReplaceHtmlHead(s);
    } else if |s| >= 5 {
      var n := if s[1] == '.' then 0 else if s[2] == '.' then 1 else if s[3] == '.' then 2 else 3;
      CopiedDotStart(s, n);
    }
  }

  /** After the replacement no `.html` is left anywhere in the name. */
  lemma {:induction false} ReplaceHtmlLeavesNone(s: string)
    ensures forall i :: 0 <= i <= |s| ==> !HtmlAt(ReplaceHtml(s)[i..])
    decreases |s|
  {
    var r := ReplaceHtml(s);
    if s != [] {
      var n := if HtmlAt(s) then 5 else 1;
      ReplaceHtmlLeavesNone(s[n..]);
      forall i | 0 <= i <= |s| ensures !HtmlAt(r[i..]) {
        if i >= n {
          assert r[i..] == ReplaceHtml(s[n..])[i - n..];
        } else if n == 1 {
          NoHtmlAtCopiedStart(s);
          assert r[i..] == r;
        } else {
          assert r[..5] == ".mako";
          assert r[i..][0] == r[i];
          if i == 0 {
            assert r[i..][1] == r[1];
          }
        }
      }
    }
  }

  /** A name without `.html` is looked up as it is. */
  lemma {:induction false} ReplaceHtmlKeeps(s: string)
    requires forall i :: 0 <= i <= |s| ==> !HtmlAt(s[i..])
    ensures ReplaceHtml(s) == s
    decreases |s|
  {
    if s != [] {
      assert s[0..] == s;
      forall i | 0 <= i <= |s[1..]| ensures !HtmlAt(s[1..][i..]) {
        assert s[1..][i..] == s[i + 1..];
      }
      ReplaceHtmlKeeps(s[1..]);
    }
  }

  /** Every `.html` of the name is looked up as `.mako` at the same place. */
  lemma {:induction false} ReplaceHtmlAt(s: string, i: nat)
    requires i <= |s| && HtmlAt(s[i..])
    ensures ReplaceHtml(s)[i..i + 5] == ".mako"
    decreases |s|
  {
    assert s[i..][0] == s[i];
    if i > 0 {
      if HtmlAt(s) {
        if i >= 5 {
          assert s[5..][i - 5..] == s[i..];
          ReplaceHtmlAt(s[5..], i - 5);
          assert ReplaceHtml(s)[i..i + 5] == ReplaceHtml(s[5..])[i - 5..i];
        }
      } else {
        assert s[1..][i - 1..] == s[i..];
        ReplaceHtmlAt(s[1..], i - 1);
        var r := ReplaceHtml(s[1..]);
        assert ReplaceHtml(s) == [s[0]] + r;
        assert ReplaceHtml(s)[i..i + 5] == r[i - 1..i + 4];
      }
    }
  }

  /** Every character outside all `.html` occurrences is copied: no
      occurrence starting at `j` with `j <= i < j + 5` covers `i`. */
  lemma {:induction false} ReplaceHtmlFrame(s: string, i: nat)
    requires i < |s| && forall j :: 0 <= j <= i && i < j + 5 ==> !HtmlAt(s[j..])
    ensures ReplaceHtml(s)[i] == s[i]
    decreases |s|
  {
    assert s[0..] == s;
    if HtmlAt(s) {
      forall j | 0 <= j <= i - 5 && i - 5 < j + 5 ensures !HtmlAt(s[5..][j..]) {
        assert s[5..][j..] == s[j + 5..];
      }
      ReplaceHtmlFrame(s[5..], i - 5);
    } else if i == 0 {
      ReplaceHtmlHead(s);
    } else {
      forall j | 0 <= j <= i - 1 && i - 1 < j + 5 ensures !HtmlAt(s[1..][j..]) {
        assert s[1..][j..] == s[j + 1..];
      }
      ReplaceHtmlFrame(s[1..], i - 1);
    }
  }

  const HtmlLayout := Text("html")

  /** `'static_base.mako'` for the "html" layout, `'site_base.mako'` otherwise. */
  function LayoutTemplate(layout: Value): string
  {
    if layout == HtmlLayout then "static_base.mako" else "site_base.mako"
  }

  /** `d.get(key, None)`. */
  function GetOrNone(m: map<string, Value>, key: string): Value
  {
    if key in m then m[key] else NoneValue
  }

  /** The context `render` hands to the template: `prev` and `next` moved to
      `prevtopic` and `nexttopic` (None when absent), the base layout chosen
      from the configured layout, `_` kept or added as the identity, and
      every other entry as it was. */
  function RewriteContext(ctx: map<string, Value>, layout: Value): (r: map<string, Value>)
    ensures "prev" !in r && "next" !in r
    ensures "prevtopic" in r && r["prevtopic"] == GetOrNone(ctx, "prev")
    ensures "nexttopic" in r && r["nexttopic"] == GetOrNone(ctx, "next")
    ensures "mako_layout" in r
    ensures r["mako_layout"] == Text("static_base.mako") <==> layout == HtmlLayout
    ensures layout != HtmlLayout ==> r["mako_layout"] == Text("site_base.mako")
    ensures "_" in r && r["_"] == (if "_" in ctx then ctx["_"] else Identity)
    ensures forall k :: k !in {"prev", "next", "prevtopic", "nexttopic", "mako_layout", "_"} ==>
      (k in r <==> k in ctx) && (k in ctx ==> r[k] == ctx[k])
  {
    map k | k in (ctx.Keys - {"prev", "next"}) + {"prevtopic", "nexttopic", "mako_layout", "_"} ::
      if k == "prevtopic" then GetOrNone(ctx, "prev")
      else if k == "nexttopic" then GetOrNone(ctx, "next")
      else if k == "mako_layout" then Text(LayoutTemplate(layout))
      else if k == "_" && "_" !in ctx then Identity
      else ctx[k]
  }

  /** The map the source's steps leave behind: pop `prev` and store it as
      `prevtopic`, likewise `next` as `nexttopic`, set `mako_layout`, then
      `setdefault('_', lambda x: x)`. */
  function StepwiseContext(ctx: map<string, Value>, layout: Value): map<string, Value>
  {
    var m := ((ctx - {"prev"})["prevtopic" := GetOrNone(ctx, "prev")] - {"next"})
               ["nexttopic" := GetOrNone(ctx, "next")]["mako_layout" := Text(LayoutTemplate(layout))];
    if "_" in m then m else m["_" := Identity]
  }

  /** RewriteContext and the source's steps agree on one key. */
  lemma RewriteContextStepsAt(ctx: map<string, Value>, layout: Value, k: string)
    ensures var r, want := RewriteContext(ctx, layout), StepwiseContext(ctx, layout);
            (k in r <==> k in want) && (k in r ==> r[k] == want[k])
  {
    var m1 := (ctx - {"prev"})["prevtopic" := GetOrNone(ctx, "prev")];
    assert GetOrNone(m1 - {"next"}, "next") == NoneValue;
    var r := RewriteContext(ctx, layout);
    if k == "prev" || k == "next" {
    } else if k == "prevtopic" || k == "nexttopic" || k == "mako_layout" {
    } else if k == "_" {
    } else {
      assert k in r <==> k in ctx;
    }
  }

  /** The declarative RewriteContext agrees with the source's sequence of
      `pop`, assignments and `setdefault`. */
  lemma RewriteContextSteps(ctx: map<string, Value>, layout: Value)
    ensures RewriteContext(ctx, layout) == StepwiseContext(ctx, layout)
  {
    var r, want := RewriteContext(ctx, layout), StepwiseContext(ctx, layout);
    forall k ensures (k in r <==> k in want) && (k in r ==> r[k] == want[k]) {
      RewriteContextStepsAt(ctx, layout, k);
    }
    assert r == want;
  }

  /** The render context: a dictionary the bridge changes in place, so the
      caller sees the changes. */
  class RenderContext {
    var vars: map<string, Value>

    constructor(vars: map<string, Value>)
      ensures this.vars == vars
    {
      this.vars := vars;
    }

    /** `dict.pop(key, None)`. */
    method Pop(key: string) returns (v: Value)
      modifies this
      ensures v == GetOrNone(old(vars), key)
      ensures vars == old(vars) - {key}
    {
      v := GetOrNone(vars, key);
      vars := vars - {key};
    }

    /** `dict[key] = v`. */
    method Set(key: string, v: Value)
      modifies this
      ensures vars == old(vars)[key := v]
    {
      vars := vars[key := v];
    }

    /** `dict.setdefault(key, v)`: adds `key` only when it is missing. */
    method SetDefault(key: string, v: Value)
      modifies this
      ensures key in old(vars) ==> vars == old(vars)
      ensures key !in old(vars) ==> vars == old(vars)[key := v]
    {
      if key !in vars {
        vars := vars[key := v];
      }
    }
  }

  /** The template bridge, reduced to the one setting `render` reads. */
  class MakoBridge {
    var layout: Value

    /** The layout `init` reads from `html_context`, "html" by default. */
    constructor(htmlContext: map<string, Value>)
      ensures layout == if "mako_layout" in htmlContext then htmlContext["mako_layout"] else HtmlLayout
    {
      layout := if "mako_layout" in htmlContext then htmlContext["mako_layout"] else HtmlLayout;
    }

    /** `render(template, context)` up to the template lookup: returns the
      name that is looked up and leaves `context` as the template sees it. */
    method Render(template: string, context: RenderContext) returns (name: string)
      modifies context
      ensures name == ReplaceHtml(template)
      ensures context.vars == RewriteContext(old(context.vars), layout)
    {
      name := ReplaceHtml(template);
      ghost var ctx := context.vars;
      var prev := context.Pop("prev");
      context.Set("prevtopic", prev);
      var next := context.Pop("next");
      context.Set("nexttopic", next);
      context.Set("mako_layout", Text(LayoutTemplate(layout)));
      context.SetDefault("_", Identity);
      RewriteContextSteps(ctx, layout);
    }
  }

  /** A page name `stem.html` whose stem has no dot is looked up as
      `stem.mako`. */
  lemma ReplaceHtmlPageName(stem: string)
    requires forall k :: 0 <= k < |stem| ==> stem[k] != '.'
    ensures ReplaceHtml(stem + ".html") == stem + ".mako"
  {
    var a := stem + ".html";
    assert a[..|stem|] == stem && a[|stem|..] == ".html";
    ReplaceHtmlCopiesUndotted(a, |stem|);
    assert ReplaceHtml(".html") == ".mako" by {
      assert HtmlAt(".html") && ".html"[5..] == [];
    }
  }

  /** A page template is looked up with the Mako extension. */
  lemma ReplaceHtmlExample()
    ensures ReplaceHtml("layout.html") == "layout.mako"
  {
    ReplaceHtmlPageName("layout");
    assert "layout" + ".html" == "layout.html" && "layout" + ".mako" == "layout.mako";
  }
}

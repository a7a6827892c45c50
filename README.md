# SQLAlchemy documentation builder: SQL popups, doctest filtering, autodoc and Mako bridging

This project models the self-contained transformations of the SQLAlchemy
manual's Sphinx extension, `doc/build/builder/builders.py`, and proves what
they guarantee:

- **Doctest-comment filter** (`StripDocTestFilter.filter`, module `Tokens`):
  drops every token whose kind is exactly `Token.Comment` and whose text
  matches `#\s*doctest:` at its start. The match is case-sensitive, and
  sub-kinds of `Comment` are kept.
- **HTML formatter with SQL popups** (`PopupSQLFormatter._format_lines` and
  `_strip_trailing_whitespace`, module `PopupSqlFormatter`): non-SQL tokens
  are buffered. Each token of the `Token.Sql` family flushes the buffer
  through the stock Pygments formatter and then writes its own markup. The
  end of the stream flushes the rest, with the last line right-stripped.
  The stock formatter is a function parameter (`BaseFormat`), so every
  result holds for any stock formatter.
- **LaTeX token rewrite** (`PopupLatexFormatter._filter_tokens`, module
  `PopupLatexFormatter`): doctest comments are removed first. Then
  `Sql.Link` and `Sql.Open` tokens vanish, the other SQL tokens become
  `Literal` text with the `{stop}` markers deleted, and all other tokens
  pass unchanged.
- **Autodoc hook** (`autodoc_skip_member`, module `Autodoc`).
- **Render-context rewrite** (`MakoBridge.render`, module `MakoTemplates`):
  the render context is a mutable dictionary (`RenderContext`) changed in
  place through `pop`, item assignment and `setdefault`. The template name
  has `.html` replaced by `.mako`.

Token streams are finite sequences of `(kind, text)` pairs. The kinds the
builder tells apart are the constructors of `Tokens.Kind`. Every other
Pygments kind is `Other(name)` and lies outside `Token.Sql`. The name is a
label only: the model takes it as given that it never names `Token.Comment`,
`Token.Literal` or a kind in `Token.Sql`, because those kinds have their own
constructors. The datatype does not enforce this. So `Other("Comment")` is a
kind distinct from `Comment` for `IsDoctestComment`, and `Other("Sql.Link")`
counts as outside the family for `InSqlFamily` and `NoSql`.

Details of the code that are easy to misread, and that the model follows as written:

- The doctest pattern is matched without `re.IGNORECASE`, so `#DOCTEST:` is
  kept (`Tokens.UpperCaseTagKept`).
- The HTML markup uses single-quoted attributes (`class='show_sql'`).
- The popup body is cleaned with `re.sub(r'(?:[{stop}|\n]*)$', '', v)`. The
  brackets make this a character class, not the marker. It removes the
  maximal trailing run of the characters `{ s t o p } |` and newline. So
  `SELECT * FROM t{stop}\n` shows as `SELECT * FROM `: the table name's `t`
  goes with the marker (`PopupSqlFormatter.StripSqlTailExamples`).
- `re.sub(r'{stop}', '', v)` makes a single left-to-right pass. A marker
  that only forms once another is deleted survives:
  `{st{stop}op}` becomes `{stop}` (`PopupLatexFormatter.RemoveStopSinglePass`).

Whitespace (`\s` in a `str` pattern and `str.rstrip()`) is Python 3's
`str.isspace` set, written out in `Text.Whitespace`.

## Model

| member | source | states |
|---|---|---|
| `Text.TrimEnd` | doc/build/builder/builders.py:132 | the result is a prefix of the input that does not end in a dropped character, and everything cut off is made of dropped characters |
| `Text.TrimEndUnique` | doc/build/builder/builders.py:132 | any string with those three properties is the one TrimEnd computes, so the maximal trailing run is well defined |
| `Text.TrimEndIdempotent` | doc/build/builder/builders.py:118 | trimming the end twice equals trimming it once |
| `Text.RStrip` | doc/build/builder/builders.py:118 | `str.rstrip()`: a prefix of the input, not ending in whitespace, with only whitespace removed |
| `Text.TrimStart` | doc/build/builder/builders.py:53 | the greedy `\s*`: a suffix of the input, not starting with whitespace, with only whitespace skipped |
| `Text.TrimStartAt` | doc/build/builder/builders.py:53 | the skip stops exactly at the first non-whitespace character |
| `Tokens.StripDoctest` | doc/build/builder/builders.py:50-55 | no doctest comment survives the filter, the output is no longer than the input, and a stream without SQL tokens stays without them |
| `Tokens.DoctestSplit` | doc/build/builder/builders.py:53 | a recognised directive is `#`, then a whitespace run ending at some index, then `doctest:` |
| `Tokens.DoctestFromSplit` | doc/build/builder/builders.py:53 | conversely, every text of that shape is recognised |
| `Tokens.StripDoctestAppend` | doc/build/builder/builders.py:52-55 | the filter distributes over concatenation, so it keeps the order of the stream |
| `Tokens.StripDoctestSingle` | doc/build/builder/builders.py:53-55 | one token is dropped exactly when it is a doctest comment and is otherwise passed unchanged |
| `Tokens.StripDoctestKeeps` | doc/build/builder/builders.py:50-55 | a stream without doctest comments passes unchanged |
| `Tokens.StripDoctestIdempotent` | doc/build/builder/builders.py:50-55 | filtering twice equals filtering once |
| `Tokens.DoctestDirectiveDropped` | doc/build/builder/builders.py:53-54 | the comment `# doctest: +SKIP` is removed |
| `Tokens.PlainCommentKept` | doc/build/builder/builders.py:53-55 | the comment `# not a doctest` is kept |
| `Tokens.UpperCaseTagKept` | doc/build/builder/builders.py:53 | the match is case-sensitive: `#DOCTEST: +SKIP` is kept |
| `Tokens.SubKindKept` | doc/build/builder/builders.py:53 | the kind must be exactly `Comment`: a directive under `Comment.Single` is kept |
| `PopupSqlFormatter.StripSqlTail` | doc/build/builder/builders.py:132 | the SQL body loses the maximal trailing run of characters from `[{stop}|\n]` and never ends in such a character |
| `PopupSqlFormatter.StripSqlTailIdempotent` | doc/build/builder/builders.py:136 | stripping the SQL tail twice equals stripping it once |
| `PopupSqlFormatter.StripSqlTailExamples` | doc/build/builder/builders.py:136 | `SELECT 1{stop}\n` becomes `SELECT 1`, and `SELECT * FROM t{stop}\n` becomes `SELECT * FROM ` |
| `PopupSqlFormatter.SqlMarkup` | doc/build/builder/builders.py:131-136 | each SQL token writes at most one line tagged 1; it writes none exactly for `Sql.Open`; `Sql.Link` writes the fixed anchor whatever its text |
| `PopupSqlFormatter.PopupMarkupExample` | doc/build/builder/builders.py:135-136 | a popup `SELECT 1{stop}\n` is written as `<div class='popup_sql'>SELECT 1</div>` |
| `PopupSqlFormatter.StripLast` | doc/build/builder/builders.py:115-120 | same length, every line but the last unchanged, and the last line keeps its tag while its text is right-stripped; empty stays empty |
| `PopupSqlFormatter.StripTrailingWhitespace` | doc/build/builder/builders.py:115-120 | the in-place overwrite of the last entry yields StripLast of its input |
| `PopupSqlFormatter.FormatLines` | doc/build/builder/builders.py:123-141 | the buffering loop yields exactly FormatLinesSpec of its input |
| `PopupSqlFormatter.EmitNoSql` | doc/build/builder/builders.py:137-140 | with no SQL token left, the loop only buffers, and the output is the final right-stripped flush of all buffered tokens |
| `PopupSqlFormatter.EmitAtSql` | doc/build/builder/builders.py:126-136 | at a SQL token the loop flushes everything buffered, writes the token's markup and continues with an empty buffer |
| `PopupSqlFormatter.FormatLinesNoSql` | doc/build/builder/builders.py:123-141 | a stream without SQL tokens is formatted as the stock formatter's output on the doctest-filtered stream, only the final line right-stripped |
| `PopupSqlFormatter.FormatLinesAtSql` | doc/build/builder/builders.py:125-136 | a SQL token first flushes the non-SQL tokens before it through the stock formatter and then writes its markup in place; the rest is formatted afresh |
| `PopupSqlFormatter.FormatLinesPopupExample` | doc/build/builder/builders.py:126-140 | a lone popup gives a flush of the empty buffer, the popup div and the final flush |
| `PopupSqlFormatter.FormatLinesExample` | doc/build/builder/builders.py:123-141 | `x`, `{sql}` and a popup give the code line, the link anchor, then the popup's lines |
| `PopupLatexFormatter.RemoveStop` | doc/build/builder/builders.py:148 | deleting markers never lengthens the text |
| `PopupLatexFormatter.RemoveStopNoMarker` | doc/build/builder/builders.py:148 | a text in which `{stop}` never occurs is unchanged |
| `PopupLatexFormatter.RemoveStopNoBrace` | doc/build/builder/builders.py:148 | a text without `{` is unchanged |
| `PopupLatexFormatter.RemoveStopAtMarker` | doc/build/builder/builders.py:148 | a marker at the front is deleted |
| `PopupLatexFormatter.RemoveStopAround` | doc/build/builder/builders.py:148 | a prefix in which no marker starts is copied (stray braces included), the marker after it is deleted, and the scan resumes behind it |
| `PopupLatexFormatter.RemoveStopStrayBrace` | doc/build/builder/builders.py:148 | a brace that opens no marker is kept: `{x}{stop}` becomes `{x}` |
| `PopupLatexFormatter.RemoveStopSinglePass` | doc/build/builder/builders.py:148 | the scan is single-pass: `{st{stop}op}` becomes `{stop}` |
| `PopupLatexFormatter.RemoveStopExample` | doc/build/builder/builders.py:148 | `SELECT 1{stop}\n` becomes `SELECT 1\n` |
| `PopupLatexFormatter.RewriteToken` | doc/build/builder/builders.py:146-152 | link and open tokens give nothing; `Sql` and `Sql.Popup` give one `Literal` with the markers removed; other tokens pass unchanged; the output holds no SQL kind |
| `PopupLatexFormatter.RewriteAll` | doc/build/builder/builders.py:145-152 | the rewritten stream holds no SQL-family token and is no longer than its input |
| `PopupLatexFormatter.FilterTokens` | doc/build/builder/builders.py:144-152 | after doctest filtering and rewriting, no SQL-family token is left and the stream is no longer than its input |
| `PopupLatexFormatter.RewriteAllLength` | doc/build/builder/builders.py:146-150 | exactly the `Sql.Link` and `Sql.Open` tokens are lost; every other token gives one output token |
| `PopupLatexFormatter.RewriteAllAppend` | doc/build/builder/builders.py:145-152 | the rewrite distributes over concatenation, so it keeps the order |
| `PopupLatexFormatter.FilterTokensAppend` | doc/build/builder/builders.py:144-152 | the whole filter distributes over concatenation |
| `PopupLatexFormatter.FilterTokensSingle` | doc/build/builder/builders.py:145-152 | on one token the filter drops doctest comments and otherwise applies RewriteToken |
| `PopupLatexFormatter.RewriteAllNoSql` | doc/build/builder/builders.py:151-152 | a stream without SQL tokens passes the rewrite unchanged |
| `PopupLatexFormatter.FilterTokensNoSql` | doc/build/builder/builders.py:144-152 | without SQL tokens, `_filter_tokens` is exactly the doctest filter |
| `PopupLatexFormatter.FilterTokensOpenSqlExample` | doc/build/builder/builders.py:146-148 | an open-SQL token `SELECT 1{stop}\n` becomes `Literal` text `SELECT 1\n` |
| `PopupLatexFormatter.FilterTokensLinkExample` | doc/build/builder/builders.py:147-150 | a link token produces no output |
| `Autodoc.SkipMember` | doc/build/builder/builders.py:157-161 | the hook never turns "document" into "skip"; it changes the decision exactly for a class member named `__init__`, `__eq__`, `__ne__`, `__lt__` or `__le__` that Sphinx would skip and that has a non-empty docstring |
| `Autodoc.SkipMemberExamples` | doc/build/builder/builders.py:157-161 | a documented class `__init__` is documented; an empty or missing docstring, or a non-class owner, leaves it skipped; a kept member stays kept |
| `MakoTemplates.ReplaceHtml` | doc/build/builder/builders.py:37 | the template name keeps its length under the replacement |
| `MakoTemplates.ReplaceHtmlCopiesUndotted` | doc/build/builder/builders.py:37 | a prefix without dots is copied unchanged |
| `MakoTemplates.ReplaceHtmlLeavesNone` | doc/build/builder/builders.py:37 | no `.html` is left anywhere in the replaced name |
| `MakoTemplates.ReplaceHtmlAt` | doc/build/builder/builders.py:37 | every `.html` of the name becomes `.mako` at the same position |
| `MakoTemplates.ReplaceHtmlFrame` | doc/build/builder/builders.py:37 | every character not covered by a `.html` occurrence is copied to the same position |
| `MakoTemplates.ReplaceHtmlKeeps` | doc/build/builder/builders.py:37 | a name without `.html` is unchanged |
| `MakoTemplates.ReplaceHtmlPageName` | doc/build/builder/builders.py:37 | a page name `stem.html` whose stem has no dot is looked up as `stem.mako` |
| `MakoTemplates.ReplaceHtmlExample` | doc/build/builder/builders.py:37 | `layout.html` is looked up as `layout.mako` |
| `MakoTemplates.RewriteContext` | doc/build/builder/builders.py:38-42 | `prev` and `next` are gone; `prevtopic` and `nexttopic` hold their old values or None; `mako_layout` is `static_base.mako` iff the layout is `"html"`, otherwise `site_base.mako`; `_` is kept or added as the identity; every other key is unchanged |
| `MakoTemplates.RewriteContextSteps` | doc/build/builder/builders.py:38-42 | the source's sequence of two pops, three assignments and one setdefault produces exactly RewriteContext |
| `MakoTemplates.RenderContext.Pop` | doc/build/builder/builders.py:38-39 | `pop(key, None)` returns the old value or None and removes the key |
| `MakoTemplates.RenderContext.Set` | doc/build/builder/builders.py:40 | item assignment updates one key |
| `MakoTemplates.RenderContext.SetDefault` | doc/build/builder/builders.py:42 | `setdefault` adds the key only when it is missing |
| `MakoTemplates.MakoBridge.constructor` | doc/build/builder/builders.py:25 | the layout is `html_context['mako_layout']`, defaulting to `"html"` |
| `MakoTemplates.MakoBridge.Render` | doc/build/builder/builders.py:36-42 | the looked-up name is the template name with `.html` replaced, and the caller's context becomes RewriteContext of its old contents |

## Left out

- `MakoTemplates.MakoBridge.Render`: returns the template name it looks up instead of the rendered page. Template lookup and `render_unicode` (line 43) run inside Mako, which is not part of this model, and so does a missing template's failure.
- `MakoBridge.init` (lines 21-34), except the layout read at line 25: it builds the Jinja fallback and the Mako `TemplateLookup`, and copies `release_date` and `versions` into Sphinx's configuration. All of these are external objects.
- `MakoBridge.render_string` (lines 45-48): pure delegation to the Jinja fallback.
- The Mako version check at import (lines 16-18): a load-time environment check.
- `PyConWithSQLLexer` and `PythonWithSQLLexer` (lines 57-112): their rules are data for Pygments' regex lexer driver and the embedded Python lexers, which are not part of this model. Their output is taken as given, an arbitrary token sequence.
- The internals of `HtmlFormatter._format_lines` and `LatexFormatter.format` (lines 127, 140, 154-155): Pygments' own code. The first is the parameter `base`. `PopupLatexFormatter.format` only passes `FilterTokens` of its input to the latter.
- `setup` (lines 163-170): registration with Sphinx and Pygments.
- Generator laziness: streams are finite sequences, and the order of yields is the order of the output sequence.
- `autodoc_skip_member`: the `app` and `options` arguments are unused. The member object is represented by its `__doc__` only. `skip` is taken to be a boolean.
- Python 2 string semantics: whitespace follows Python 3, where `\s` in a `str` pattern matches Unicode whitespace.

# nb-canvas-quiz in Dafny

A model of the core of nb-canvas-quiz. This is a system that keeps programming questions in Jupyter notebooks. It checks students' solutions against them, and exports quizzes built from them to Canvas. The repository holds three generations of the question classes, and each is modelled separately:

- `nbquiz/__init__.py` holds `FunctionTestCase` and `CellTestCase`. Its model is the module `LegacyQuiz`.
- `nbquiz/testcase.py` holds the classes with `validate_class`/`validate_instance`. Its model is `LegacyTestCase`, with the test bank of `nbquiz/testbank.py` in `LegacyTestBank`.
- `src/nbquiz/testcase.py` is modelled as `TestCase`.
- `src/nbquiz/question.py` holds `TestQuestion`, `FunctionQuestion`, `CellQuestion` and `QuestionGroup`. Its model is `Question`, with the tag registry of `src/nbquiz/testbank.py` in `TestBank`.

Two more modules cover the command line checker and the quiz export:

- `Checker` models `src/nbquiz/cli/test.py`. It finds tagged cells, reads their error and HTML outputs, writes the search paths into the test bank cell, and maps the four cells' errors to the exit status 10/11/12/13/0.
- `CanvasExport` and `CanvasYaml` model `src/nbquiz/canvas/export.py`. They cover the `CanvasExport` object, with its question list, manifest resources and file list, and its `render` joins. They also cover the YAML dispatch of `from_yaml` and its generator `elaborate_group`.

Supporting modules:

- `Strings` covers `str.join`, slicing, `strip`, `replace`, case mapping, `textwrap.dedent` and a simplified `str.format`.
- `PyModel` covers the Python values, dictionaries in insertion order, exceptions and assertion messages. It also covers the objects the code updates in place: class objects whose `__dict__` `validate()` assigns, notebook cell entries whose namespace receives wrappers, question groups and test instances.
- `Notebook` covers notebooks as `nbformat` reads them.

The parts of Python that are not modelled become parameters:

- **Interpreter and standard library.** `PyModel.Env` carries the SHA-1 hex digest, `str()` of values the model does not spell out, and the attributes a class object named in the YAML document gives a class that lists it among its bases. Where a property needs the digest to be one, `PyModel.HexDigests` says that every digest is 40 lower-case hex digits.
- **File system and notebooks.** `TestBank.Platform` stands for `Path.absolute`/`Path.exists`, `glob`, `nbformat.read` and `exec`.
- **Export helpers.** `CanvasExport.Outside` stands for `md_to_canvas_html`, `Path.name` and the Jinja templates.
- **Identifiers.** `CanvasExport.IdSource` yields `uuid`-based identifiers in the order they are drawn.

Methods that change state are proved against specification functions of the old state. These include `validate()` assigning `name` or `_celltag`, the bank's tag map, the legacy indexes, the notebook cells' `source`, and the export's lists. Lemmas then prove what the source promises about those functions.

## Model

| member | source | states |
|---|---|---|
| Strings.Take | src/nbquiz/question.py:94 | `s[:n]` is the prefix of `s` of length `min(n, len(s))` |
| Strings.Join | src/nbquiz/canvas/export.py:84 | definition of `sep.join(parts)` |
| Strings.Strip | src/nbquiz/question.py:243 | definition of `s.strip()`; `StripSplit` and `StripExact` state it |
| Strings.ReplaceAll | nbquiz/__init__.py:62 | definition of `s.replace(p, r)`; `ReplaceAbsent`, `ReplaceShrinks` and `ReplaceLeading` state it |
| Strings.Format | src/nbquiz/question.py:110 | definition of the simplified `str.format`; `FormatPlain`, `FormatDependsOnKeys` and the other `Format` lemmas state it |
| Strings.Dedent | src/nbquiz/question.py:124 | definition of `textwrap.dedent`; `MarginShared`, `DedentLineSplit` and `FormatDedent` state it |
| Strings.Lower | src/nbquiz/question.py:90-91 | an upper-case letter, ASCII or Latin-1, becomes the lower-case letter 32 code points on; any other character is unchanged |
| Strings.LStripSplit | src/nbquiz/question.py:243 | `lstrip` removes exactly a leading run of whitespace and stops at a non-whitespace character |
| Strings.RStripSplit | src/nbquiz/question.py:243 | `rstrip` removes exactly a trailing run of whitespace and stops at a non-whitespace character |
| Strings.StripSplit | src/nbquiz/question.py:243 | a string is the whitespace `strip` drops in front, the stripped text, and the whitespace it drops behind; the stripped text starts and ends with non-whitespace |
| Strings.LStripPrefix | src/nbquiz/question.py:243 | `lstrip` removes a whitespace run before text that starts with non-whitespace, and nothing more |
| Strings.RStripSuffix | src/nbquiz/question.py:243 | `rstrip` removes a whitespace run after text that ends with non-whitespace, and nothing more |
| Strings.StripExact | src/nbquiz/question.py:243 | stripping whitespace off text whose own ends are not whitespace gives that text back |
| Strings.ReplaceAbsent | nbquiz/__init__.py:62 | `replace` leaves a string without the pattern unchanged |
| Strings.ReplaceShrinks | nbquiz/__init__.py:62 | replacing with `""` never lengthens a string |
| Strings.ReplaceLeading | nbquiz/__init__.py:62 | a leading occurrence is replaced and scanning resumes right after it (left-to-right, non-overlapping) |
| Strings.FormatPlain | src/nbquiz/question.py:110 | a template without braces formats to itself |
| Strings.FormatDependsOnKeys | src/nbquiz/question.py:108-113 | whether `format` succeeds, which key it reports missing, and whether it meets a stray brace or a positional field depends only on the key set, so the `validate` check and the backticked rendering in `question()` agree |
| Strings.FormatPlainPrefix | src/nbquiz/question.py:110 | text without braces before a template is copied through unchanged |
| Strings.FormatLeadingPlaceholder | src/nbquiz/question.py:110 | a template opening with `{k}` gets the value of `k` there, or `KeyError(k)`; an empty or all-digit `k` is a positional field and raises `IndexError` |
| Strings.FormatOnePlaceholder | src/nbquiz/question.py:108-113 | a single `{k}` amid plain text gets the value of `k`, or `KeyError(k)` when `k` is not supplied; `{}` or a numeric `{0}` raises `IndexError`, as `format(**values)` has no positional arguments |
| Strings.LinesJoin | src/nbquiz/question.py:124 | cutting a text at its newlines gives lines without newlines that join back into the text |
| Strings.Indent | src/nbquiz/question.py:124 | a line's indentation is its run of spaces and tabs in front, stopping at the first other character |
| Strings.CommonPrefix | src/nbquiz/question.py:124 | the common prefix of two indentations is a prefix of both |
| Strings.CommonPrefixLongest | src/nbquiz/question.py:124 | every prefix the two share is a prefix of their common prefix |
| Strings.MarginShared | src/nbquiz/question.py:124 | `dedent`'s margin is made of spaces and tabs, every line with more than whitespace starts with it, and it is the longest such prefix; there is one exactly when some line has more than whitespace |
| Strings.DedentLineSplit | src/nbquiz/question.py:124 | `dedent` only removes spaces and tabs from the front of a line |
| Strings.IndentBraceFree | src/nbquiz/question.py:124 | the removed indentation holds no brace and no newline |
| Strings.FieldsClosedSuffix | src/nbquiz/question.py:124 | a line whose fields close still has them close once its indentation is removed |
| Strings.FormatNewline | src/nbquiz/question.py:124 | a template made of a line whose fields close, a newline and the rest formats as the two parts formatted apart and joined by the newline |
| Strings.FormatDedentLines | src/nbquiz/question.py:124 | removing indentation from lines whose fields close changes neither whether `format` succeeds nor which key it reports missing |
| Strings.FormatDedent | src/nbquiz/question.py:124 | when every field of the docstring closes on its own line, formatting the dedented docstring succeeds exactly when formatting the docstring does, and otherwise fails with the same error |
| PyModel.Get | src/nbquiz/question.py:227 | looking a key up in an insertion-ordered dictionary finds a value exactly when the key is present |
| PyModel.Set | src/nbquiz/question.py:247-249 | `d[k] = v` keeps the length for an existing key and adds one entry for a new key |
| PyModel.GetSetSame | src/nbquiz/question.py:247-249 | after `d[k] = v`, `d[k]` is `v` |
| PyModel.GetSetOther | src/nbquiz/question.py:247-249 | `d[k] = v` leaves every other key's value unchanged |
| PyModel.SetFresh | src/nbquiz/question.py:247-249 | a new key goes last in insertion order |
| PyModel.Iterate | src/nbquiz/question.py:102-107 | among the modelled values, `isinstance(v, Iterable)` holds exactly for strings, lists and dicts |
| PyModel.TruthyIterable | src/nbquiz/question.py:72 | an iterable `tokens_forbidden` is true exactly when it yields something |
| PyModel.Contains | src/nbquiz/testbank.py:69-70 | `in` on a list is membership, on strings it is substring; the only exception it raises is `TypeError` |
| PyModel.Subscript | src/nbquiz/canvas/export.py:188 | `test["title"]` succeeds exactly on a dict with that key and yields its value; otherwise `KeyError` or `TypeError` |
| PyModel.IsInstance | src/nbquiz/question.py:228-230 | `isinstance(v, t)` raises `TypeError` exactly when `t` is not a type or class; a true answer for a type other than `object` and `int` means `v` has exactly that type |
| PyModel.PyClass.constructor | src/nbquiz/question.py:149 | `type(classname, bases, class_locals)` creates a class with exactly that name, those bases and that dictionary |
| PyModel.QuestionGroup.constructor | src/nbquiz/question.py:162-163 | a group holds the list it is given, in order |
| PyModel.TestInstance.constructor | src/nbquiz/question.py:39-47 | a new test instance has its class and solution cell, and no solution yet |
| Question.Cellid | src/nbquiz/question.py:79-84 | `cellid()` is `@` followed by the class name |
| Question.Initials | src/nbquiz/question.py:90-92 | the initials are at most as long as the name |
| Question.InitialsLower | src/nbquiz/question.py:90-92 | the initials are lower-case letters |
| Question.Celltag | src/nbquiz/question.py:86-94 | `celltag()` raises `IndexError` exactly for an empty name |
| Question.CelltagShape | src/nbquiz/question.py:86-94 | the tag is `@`, the lowercased first letter, the lowercased capitals of the rest, `-`, then the first four hex digits of the SHA-1 of the name; it depends only on the name |
| Question.CelltagDigits | src/nbquiz/question.py:86-94 | when the digest is a SHA-1 hex digest, the tag ends with its dash and exactly four lower-case hex digits |
| Question.Attr | src/nbquiz/question.py:244-247 | `getattr(cls, a)` succeeds exactly for a present attribute and yields its value |
| Question.Rendered | src/nbquiz/question.py:110 | the keyword map of `validate` has one entry per class attribute |
| Question.Backticked | src/nbquiz/question.py:125 | the keyword map of `question()` has one entry per class attribute |
| Question.CheckIterable | src/nbquiz/question.py:102-107 | the iterable assertion passes exactly when the attribute is present and iterable |
| Question.DocCheck | src/nbquiz/question.py:108-113 | the docstring check passes exactly when `__doc__` is a string that formats with the class attributes |
| Question.DocCheckPositional | src/nbquiz/question.py:108-113 | a docstring with a positional field such as `{}` or `{0}` fails the check with `IndexError`, which escapes the `except KeyError` |
| Question.FunctionPrechecks | src/nbquiz/question.py:254-263 | when the function checks pass, `annotations` is a dict and its entries are returned |
| Question.BaseValidate | src/nbquiz/question.py:96-113 | definition of `TestQuestion.validate`: iterable token lists, the cell tag, then the docstring rendered with the class's attributes; `Question.ValidateIff` states when it passes |
| Question.FunctionValidate | src/nbquiz/question.py:252-265 | definition of `FunctionQuestion.validate`: a `name`, an `annotations` dictionary with a `return` key whose references resolve, then the base checks; `Question.ValidateIff` states when it passes |
| Question.ValidateSpec | src/nbquiz/question.py:252-265 | definition: the kind chooses between the base checks and the function checks, which `CellQuestion` inherits |
| Question.ValidatedOwn | src/nbquiz/question.py:291-295 | `CellQuestion.validate` adds exactly `name = "_cell_wrapper"`; other kinds leave the dictionary as it is |
| Question.ValidatedOwnKeeps | src/nbquiz/question.py:291-295 | validation keeps every attribute other than `name` |
| Question.ValidateIff | src/nbquiz/question.py:96-113 | `validate()` (with the `FunctionQuestion` checks of 252-265 for function and cell kinds) passes exactly when both token lists are iterable, the docstring formats, and for function kinds `name` is not `None`, `annotations` is a dict with `"return"` and every reference resolves |
| Question.Validate | src/nbquiz/question.py:291-295 | the method leaves the dictionary `ValidatedOwn` describes and reports what the attributes it then sees give |
| Question.ValidateIdempotent | src/nbquiz/question.py:291-295 | validating again changes nothing and reports the same |
| Question.ValidateMember | src/nbquiz/question.py:169-170 | one pass of the loop: the member's result is its verdict on its dictionary before the loop, members before it are validated and the rest are untouched or validated |
| Question.GroupValidate | src/nbquiz/question.py:168-170 | `QuestionGroup.validate` reports the first failing member's error, in member order; every member is left unchanged or validated, and all are validated on success |
| Question.ValidateAgain | src/nbquiz/question.py:170 | validating a member that may already be validated gives the same dictionary and verdict as validating it once |
| Question.GroupVerdict | src/nbquiz/question.py:168-170 | the group passes exactly when every member passes |
| Question.MatchRefSound | src/nbquiz/question.py:243 | every key the pattern `^\s*{\s*(\S+)\s*}\s*$` accepts is whitespace, `{`, whitespace, a non-empty whitespace-free name, whitespace, `}`, whitespace |
| Question.MatchRefComplete | src/nbquiz/question.py:243 | every key of that shape is accepted and its group is the name |
| Question.MatchRef | src/nbquiz/question.py:243 | definition of the reference pattern `^\s*{\s*(\S+)\s*}\s*$`; `MatchRefSound` and `MatchRefComplete` state what it accepts |
| Question.ResolveKey | src/nbquiz/question.py:243-249 | a resolved key is hashable |
| Question.ResolveInto | src/nbquiz/question.py:239-250 | definition of the loop of `_resolve_annotations`, key by key into the dictionary so far; `ResolveAnnotations` and `ResolveOkIff` state its result |
| Question.ResolveAnnotations | src/nbquiz/question.py:239-250 | the loop builds what `Resolve` specifies |
| Question.ResolveOkIff | src/nbquiz/question.py:239-250 | resolution succeeds exactly when every reference names an existing attribute whose value is hashable |
| Question.Rekeyed | src/nbquiz/question.py:242-249 | resolution keeps the number of entries |
| Question.ResolveDistinct | src/nbquiz/question.py:239-250 | with distinct resolved keys, each `{ attr }` key becomes `getattr(cls, attr)`, other keys stay, values and order are kept |
| Question.ResolvePlain | src/nbquiz/question.py:248-249 | keys that are not references resolve to themselves |
| Question.PlainAnnotationsResolveToThemselves | src/nbquiz/question.py:239-250 | annotations without references and without repeated keys resolve to themselves |
| Question.SyntaxCheckIff | src/nbquiz/question.py:66-75 | with iterable token lists the check passes exactly when no token is a list or dict, every required node type occurs and no forbidden one does; it raises `TypeError` exactly when a required token, or (once every required one occurs) a forbidden token, is a list or dict; any other failure is an assertion error |
| Question.SyntaxCheck | src/nbquiz/question.py:66-75 | definition of the syntax check of `setUp`, a list or dict token raising `TypeError`; `SyntaxCheckIff` states when it passes and how it fails |
| Question.NameLookup | src/nbquiz/question.py:200-201 | the solution is the value bound to `name` in the cell's namespace |
| Question.ArgNames | src/nbquiz/question.py:214 | the argument names are the annotation keys other than `"return"` |
| Question.FirstMismatch | src/nbquiz/question.py:218-221 | the reported argument is the first position where the names differ |
| Question.ArgumentCheckIff | src/nbquiz/question.py:207-221 | a public name passes exactly when it is a documented cell function whose parameters are the resolved non-`return` keys in order; a misplaced argument names the first differing parameter |
| Question.ArgumentCheck | src/nbquiz/question.py:209-221 | definition of the checks on a public solution function; `ArgumentCheckIff` states when they pass |
| Question.FunctionSetUp | src/nbquiz/question.py:197-237 | the syntax check, the `ns` lookup, the callable and argument checks in that order; on success `self.solution` is the checking wrapper; a failure after the lookup leaves the looked-up value |
| Question.CallChecked | src/nbquiz/question.py:225-234 | the wrapper returns the inner function's result unchanged when it passes |
| Question.CallCheckedIff | src/nbquiz/question.py:227-232 | a `None` annotation demands a `None` result; a type annotation demands `isinstance`; anything else raises `TypeError` |
| Question.PositionalGet | src/nbquiz/question.py:283 | the i-th argument name is bound to `args[i]` and nothing else is bound |
| Question.UpdateWithGet | src/nbquiz/question.py:284 | `updates.update(kwargs)` binds each keyword and keeps the other entries |
| Question.BindCellArgumentsSpec | src/nbquiz/question.py:282-284 | binding fails with `IndexError` exactly when there are too few positional arguments; keywords win, other names get their positional argument |
| Question.BindCellArguments | src/nbquiz/question.py:282-284 | definition of the `_cell_wrapper` argument binding; `BindCellArgumentsSpec`, `PositionalGet` and `UpdateWithGet` state its result |
| Question.FirstUnassigned | src/nbquiz/question.py:276-279 | the variable reported as never assigned is the first unassigned one |
| Question.CellSetUp | src/nbquiz/question.py:273-289 | every argument must be assigned, `_cell_wrapper` is stored in the cell's namespace, then `FunctionQuestion.setUp` runs on it |
| Question.LookupSolution | src/nbquiz/question.py:49-58 | the cell tagged with `celltag()` if present, else the one tagged with `cellid()`, else a failure naming `celltag()` |
| Question.NewCase | src/nbquiz/question.py:39-58 | `__init__` validates, then finds the solution cell as `LookupSolution` does; the new instance has no solution yet |
| Question.InitFindsTaggedCell | src/nbquiz/question.py:49-58 | a valid question is found under its cell tag when one exists, else under its class name, and fails only when neither exists |
| Question.InitOutcome | src/nbquiz/question.py:39-58 | definition of what `__init__` finds: validation, the tags, then the solution lookup; `InitFindsTaggedCell` and `NewCase` state it |
| Question.QuestionText | src/nbquiz/question.py:115-128 | `question()` validates, then renders the docstring with backticked attributes and the tagging instruction |
| Question.ValidQuestionRenders | src/nbquiz/question.py:115-128 | a valid class whose docstring closes every field on the line that opens it always renders: a newline, the dedented docstring formatted with backticked attributes, and the instruction naming its cell tag |
| Question.QuestionTextSpec | src/nbquiz/question.py:115-128 | definition of `question()` after `validate()`; `QuestionText` and `ValidQuestionRenders` state its result |
| Question.FeedAllAppend | src/nbquiz/question.py:136-137 | each parameter adds its `name:value` text after the previous ones |
| Question.HashInput | src/nbquiz/question.py:134-137 | the hashed text is the base name, then `name:value` for each parameter in the given order |
| Question.VariantNaming | src/nbquiz/question.py:139-140 | without `classname` the name is the base, `_` and at most four hex digits, so it differs from the base and so does its tag; an explicit `classname` is used verbatim |
| Question.Variant | src/nbquiz/question.py:130-151 | `variant()` validates the base, copies its dictionary with the parameters on top, appends the extra bases after the base's bases, and succeeds exactly when both validations pass and the name is a string |
| Question.VariantNameDigits | src/nbquiz/question.py:134-140 | when the digest is a SHA-1 hex digest, a variant without `classname` is named by the base's name, `_`, and exactly four lower-case hex digits |
| Question.VariantName | src/nbquiz/question.py:134-140 | definition of a variant's name; `VariantNaming` and `VariantNameDigits` state its shape |
| TestCase.DefaultTag | src/nbquiz/testcase.py:102-105 | `_celltag` is `celltag` when that is not `None`, else `@` and the class name |
| TestCase.IterableChecks | src/nbquiz/testcase.py:93-101 | the checks pass exactly when `tokens_required`, `tokens_forbidden` and `tags` are iterable |
| TestCase.Validate | src/nbquiz/testcase.py:87-112 | the method reports and assigns what `ValidateOutcome` describes |
| TestCase.ValidateIff | src/nbquiz/testcase.py:87-112 | `validate()` (with the overrides at 217-221 and 247-251) passes exactly when the class is well formed |
| TestCase.ValidatedCelltag | src/nbquiz/testcase.py:102-105 | after a successful `validate()`, `_celltag` is `celltag`, or `@` and the class name when that is `None` |
| TestCase.NewCase | src/nbquiz/testcase.py:41-52 | `__init__` validates, then takes the cell tagged `_celltag`, or fails naming `_celltag` |
| TestCase.NameStage | src/nbquiz/testcase.py:73-83 | a named solution must be private or defined by the cell, and bound in its namespace, and is then `ns[name]`; with no name the solution is the cell itself |
| TestCase.SetUp | src/nbquiz/testcase.py:54-85 | the syntax check, then the name stage, which sets `self.solution` |
| TestCase.FunctionSetUp | src/nbquiz/testcase.py:169-202 | the base setUp, the callable, annotation and argument checks, then a wrapper that always asks `isinstance` |
| TestCase.NoneAnnotationAlwaysRaises | src/nbquiz/testcase.py:194-199 | with a `None` return annotation every call of the wrapper raises `TypeError` |
| TestCase.CellSetUp | src/nbquiz/testcase.py:229-245 | every argument must be assigned, `_cell_wrapper` is installed, then `FunctionQuestion.setUp` runs |
| TestCase.QuestionText | src/nbquiz/testcase.py:114-127 | `question()` validates, then renders the backticked docstring and the instruction naming `_celltag` |
| TestCase.ValidQuestionRenders | src/nbquiz/testcase.py:114-127 | a valid class whose docstring closes every field on the line that opens it always renders: a newline, the dedented docstring formatted with backticked attributes, and the instruction naming the `_celltag` that `validate()` derived |
| TestCase.EmptyClassnameDerives | src/nbquiz/testcase.py:138-139 | an empty `classname` is replaced by the derived name here, while src/nbquiz/question.py uses it verbatim |
| TestCase.Variant | src/nbquiz/testcase.py:129-150 | as in src/nbquiz/question.py, with any false `classname` replaced by the derived name |
| TestCase.ValidateOutcome | src/nbquiz/testcase.py:87-112 | definition of what `validate()` reports and leaves in the class dictionary; `TestCase.Validate` and `TestCase.ValidateIff` state it |
| TestCase.QuestionTextSpec | src/nbquiz/testcase.py:114-127 | definition of `question()` after `validate()`; `TestCase.QuestionText` and `TestCase.ValidQuestionRenders` state its result |
| TestCase.VariantName | src/nbquiz/testcase.py:138-139 | definition of a variant's name, a false `classname` giving the derived name; `EmptyClassnameDerives` states it |
| LegacyTestCase.ValidateClass | nbquiz/testcase.py:81-95 | `validate_class` (with the overrides at 158-161 and 218-221) reports and assigns what `ValidateClassOutcome` describes |
| LegacyTestCase.FunctionInstanceIff | nbquiz/testcase.py:163-193 | the wrapper is returned exactly when the base finds a callable value, the annotations are set, and a public name's function has the annotated parameters |
| LegacyTestCase.CellValidateInstance | nbquiz/testcase.py:223-238 | the method reports and leaves the namespace that `CellInstanceOutcome` describes |
| LegacyTestCase.CellWrapperIsFound | nbquiz/testcase.py:223-238 | once every argument is assigned and the annotations are set, the installed `_cell_wrapper` is found and wrapped |
| LegacyTestCase.SetUp | nbquiz/testcase.py:42-63 | validate the class, fetch the cell tagged `_celltag` or fail naming it, check the syntax, then `validate_instance` sets `self.solution` |
| LegacyTestCase.QuestionText | nbquiz/testcase.py:97-107 | `question()` runs `validate_class`, then renders the docstring with the plain attribute values |
| LegacyTestCase.QuestionTextReportsMissingKey | nbquiz/testcase.py:97-105 | a docstring naming a missing variable (a field name that is not empty or all digits), with every field closed on its own line, fails in `question()` with a bare `KeyError` |
| LegacyTestCase.Variant | nbquiz/testcase.py:109-126 | the variant is named by `params["classname"]` or the derived name, keeps the base's bases, is not validated, and has the parameters over the base's dictionary with `celltag` defaulting to `@` and its name |
| LegacyTestCase.VariantTaggedByName | nbquiz/testcase.py:121-122 | a variant without an explicit `celltag` gets `_celltag` equal to `@` and its own name |
| LegacyTestCase.ValidateClassOutcome | nbquiz/testcase.py:81-95 | definition of what `validate_class()` reports and assigns; `LegacyTestCase.ValidateClass` states it |
| LegacyTestCase.FunctionInstanceOutcome | nbquiz/testcase.py:163-193 | definition of `FunctionQuestion.validate_instance`; `FunctionInstanceIff` states when it passes |
| LegacyTestCase.CellInstanceOutcome | nbquiz/testcase.py:223-238 | definition of `CellQuestion.validate_instance`; `CellValidateInstance` and `CellWrapperIsFound` state it |
| LegacyTestCase.QuestionTextSpec | nbquiz/testcase.py:97-107 | definition of `question()` after `validate_class()`; `LegacyTestCase.QuestionText` and `QuestionTextReportsMissingKey` state its result |
| LegacyTestCase.VariantName | nbquiz/testcase.py:116-119 | definition of a variant's class name: the `classname` parameter, else the base name and four hex digits; `LegacyTestCase.Variant` states it |
| LegacyTestCase.VariantLocals | nbquiz/testcase.py:121-125 | definition of a variant's dictionary, the parameters over the base's with a default `celltag`; `VariantTaggedByName` states the tag |
| LegacyQuiz.Globals.constructor | nbquiz/__init__.py:55 | the test module's globals start as given |
| LegacyQuiz.Validate | nbquiz/__init__.py:35-40 | `validate` passes exactly when `func_info` is a `FunctionInfo`; failures are assertion errors |
| LegacyQuiz.SetUpSpec | nbquiz/__init__.py:43-55 | setUp succeeds exactly when validation passes, a cell tagged `@` and the class name exists, and it defines and binds the function; the value bound is `ns[name]` |
| LegacyQuiz.SetUp | nbquiz/__init__.py:43-57 | on success the function is copied into the globals under its name; a failure changes nothing |
| LegacyQuiz.CellSetUp | nbquiz/__init__.py:83-103 | the positional wrapper is stored under the `FunctionInfo` name in the cell's namespace and in the globals; no other cell changes |
| LegacyQuiz.PositionalArgsOk | nbquiz/__init__.py:91-96 | binding succeeds exactly when each key other than `return` has an argument at its own position and is hashable; otherwise it raises `IndexError` or `TypeError` |
| LegacyQuiz.PositionalArgsGet | nbquiz/__init__.py:91-96 | each non-`return` key is bound to `args[n]` for its position n, counting `return`; `return` is never bound |
| LegacyQuiz.PositionalArgs | nbquiz/__init__.py:91-96 | definition of the dictionary the positional wrapper builds, where a missing argument raises `IndexError` before an unhashable key raises `TypeError`; `PositionalArgsOk` and `PositionalArgsGet` state it |
| LegacyQuiz.CallPositional | nbquiz/__init__.py:91-98 | the annotations are read when the wrapper is called, so non-iterable annotations raise only then |
| LegacyQuiz.FormatType | nbquiz/__init__.py:59-63 | `format_type` never lengthens `str(t)` and leaves it unchanged when it has no `typing.` |
| LegacyQuiz.FormatTypeDropsModule | nbquiz/__init__.py:62 | a leading `typing.` is removed |
| LegacyQuiz.ListedKeys | nbquiz/__init__.py:71 | the bullets list every annotation key but the last, in order |
| LegacyQuiz.QuestionTextSpec | nbquiz/__init__.py:65-74 | the dedented doc, then the function name line, then `Arguments:`, then a bullet per key but the last, then the `Returns` line |
| LegacyQuiz.BulletText | nbquiz/__init__.py:71-72 | the `+=` loop builds the bullets, one per key, in order |
| LegacyQuiz.QuestionText | nbquiz/__init__.py:65-74 | the method builds the text `QuestionTextSpec` describes |
| LegacyQuiz.ListedKeysAreArguments | nbquiz/__init__.py:71 | when `return` is the last key, the bullets are exactly the argument names |
| LegacyQuiz.CellQuestionText | nbquiz/__init__.py:107-110 | `CellTestCase.question()` is the dedented docstring alone |
| LegacyQuiz.CellTextIsPrefix | nbquiz/__init__.py:107-110 | the cell question's text starts the function question's text |
| LegacyQuiz.HeadingStarts | nbquiz/__init__.py:68-70 | the function question's text opens with the dedented docstring |
| LegacyQuiz.Bullets | nbquiz/__init__.py:71-72 | definition of the argument bullets, one per listed key in order; `BulletText` and `ListedKeysAreArguments` state them |
| LegacyQuiz.Heading | nbquiz/__init__.py:68-70 | definition of the heading: dedented docstring, function name, `Arguments:`; `HeadingStarts` states it |
| TestBank.IsQuestionCell | src/nbquiz/testbank.py:67-70 | only code cells are kept, and a kept cell's metadata has `tags` |
| TestBank.TaggedSources | src/nbquiz/testbank.py:64-72 | extraction succeeds exactly when every cell's metadata can be searched; each source comes from a tagged code cell |
| TestBank.TaggedSourcesConcat | src/nbquiz/testbank.py:64-72 | the sources of two runs of cells are those of the first then those of the second, so document order is kept |
| TestBank.TaggedSourcesUnfold | src/nbquiz/testbank.py:64-72 | the first cell contributes its source exactly when it is a question cell, before the rest |
| TestBank.TaggedSourcesSingle | src/nbquiz/testbank.py:66-70 | a single cell contributes its source exactly when it is a question cell |
| TestBank.QuestionSource | src/nbquiz/testbank.py:64-72 | definition of a notebook's question source, the tagged cells' sources joined by blank lines; `TaggedSources` and its lemmas state which cells take part |
| TestBank.AddQuestion | src/nbquiz/testbank.py:85-88 | a failing registration leaves the map unchanged |
| TestBank.AddQuestionTags | src/nbquiz/testbank.py:85-88 | registration succeeds exactly for a non-empty name that validates; the class is then found under its cell tag and cell id, no other tag changes, and only those two are added |
| TestBank.AddMembers | src/nbquiz/testbank.py:93-97 | definition of registering a group's members in order; `AddMembersOrigin` and `AddMembersRegisters` state its result |
| TestBank.AddEntry | src/nbquiz/testbank.py:77-97 | definition of registering one namespace entry; `AddEntryRegisters` states its result |
| TestBank.AddAll | src/nbquiz/testbank.py:77-97 | definition of registering the namespace entry by entry; `AddAllOrigin` and `AddAllRegisters` state its result |
| TestBank.AddMembersOrigin | src/nbquiz/testbank.py:93-97 | registering a group's members removes no tag and stores only members of the group |
| TestBank.AddAllOrigin | src/nbquiz/testbank.py:77-97 | registration never removes a tag, and everything it stores comes from the namespace |
| TestBank.AddMembersRegisters | src/nbquiz/testbank.py:93-97 | registering a group's members without error leaves every member found under its cell tag and its cell id, and removes no tag |
| TestBank.AddEntryRegisters | src/nbquiz/testbank.py:77-97 | a namespace entry registered without error is found under its tags: a public non-framework question class under both of its tags, a group under `@name` and each of its members under both of its tags |
| TestBank.AddAllRegisters | src/nbquiz/testbank.py:77-97 | a namespace registered without error has every entry found under its tags, and no earlier tag is lost |
| TestBank.LoadOne | src/nbquiz/testbank.py:62-75 | `_sources` is unchanged or grows by `"\n\n"` and the notebook's question source |
| TestBank.ReloadRepeatsSource | src/nbquiz/testbank.py:75 | loading the same notebook twice appends its source twice |
| TestBank.Bank.constructor | src/nbquiz/testbank.py:19-22 | a new bank has no questions, no sources and no paths |
| TestBank.Bank.AddPath | src/nbquiz/testbank.py:24-29 | a missing path raises `ValueError` and leaves the paths as they were; otherwise exactly its absolute form is appended |
| TestBank.Bank.Stats | src/nbquiz/testbank.py:39-42 | the count of distinct entities is at most the number of tags, and zero exactly for an empty bank |
| TestBank.Bank.Match | src/nbquiz/testbank.py:48-53 | `match` succeeds exactly when some tag is registered, returns the registered tags' entities in input order, and otherwise raises the `ValueError` |
| TestBank.Bank.Find | src/nbquiz/testbank.py:55-60 | `find` succeeds exactly for a registered tag and returns its entity; otherwise it raises `match`'s `ValueError` |
| TestBank.Bank.RegisterQuestion | src/nbquiz/testbank.py:85-88 | the registration step updates the map as `AddQuestion` describes and changes nothing else |
| TestBank.Bank.ValidateKnown | src/nbquiz/testbank.py:86 | `validate()` of a class reports its known verdict, however often it has run |
| TestBank.Bank.RegisterEntry | src/nbquiz/testbank.py:77-97 | one namespace entry is registered as `AddEntry` describes |
| TestBank.Bank.RegisterMembers | src/nbquiz/testbank.py:93-97 | a group's members are validated and registered in order as `AddMembers` describes, stopping at the first that raises; when none raises, every member is found under both of its tags and no tag is lost |
| TestBank.Bank.RegisterAll | src/nbquiz/testbank.py:77-97 | the loop over the namespace registers as `AddAll` describes, stopping at the first raise; when nothing raises, every public non-framework question class is found under both of its tags, every group under `@name` with each member under both of its tags, and no tag is lost |
| TestBank.Bank.LoadFile | src/nbquiz/testbank.py:62-97 | `_load` leaves the tag map and sources `LoadOne` describes and keeps the paths |
| TestBank.Bank.LoadFiles | src/nbquiz/testbank.py:33-35 | the inner loop of `load` loads the notebooks in order, stopping at the first raise |
| TestBank.Bank.Load | src/nbquiz/testbank.py:31-37 | `load` loads every notebook of every search path, path by path, and keeps the paths |
| TestBank.GlobbedConcat | src/nbquiz/testbank.py:32-33 | the notebooks of two runs of paths are those of the first then those of the second |
| TestBank.Globbed | src/nbquiz/testbank.py:32-33 | definition of the notebooks `load()` visits, path by path; `GlobbedConcat` states it |
| TestBank.LoadAll | src/nbquiz/testbank.py:31-35 | definition of loading notebooks in order, stopping at the first raise; `LoadAllStep`, `LoadAllStops` and `LoadAllConcat` state it |
| TestBank.LoadAllStep | src/nbquiz/testbank.py:33-35 | after a prefix of notebooks loaded without a raise, the next notebook is loaded from the state the prefix left |
| TestBank.LoadAllStops | src/nbquiz/testbank.py:33-35 | once a notebook raises, the notebooks after it are not loaded |
| TestBank.LoadAllConcat | src/nbquiz/testbank.py:31-35 | loading two runs of notebooks is loading the first, then the second unless the first raised, so a raise is not rolled back |
| TestBank.Lookups | src/nbquiz/testbank.py:50 | at most one entity per tag, empty exactly when no tag is registered, each from a registered tag |
| TestBank.LookupsConcat | src/nbquiz/testbank.py:50 | the lookups of two runs of tags are those of the first then those of the second, so input order is kept |
| TestBank.OneQuestionOneEntity | src/nbquiz/testbank.py:41 | one question registered under two tags counts as one entity |
| LegacyTestBank.NsLookup | nbquiz/testbank.py:32-34 | a name is found exactly when `exec` bound it |
| LegacyTestBank.CollectShift | nbquiz/testbank.py:31-35 | what `_load` appends does not depend on what was loaded before |
| LegacyTestBank.CollectAppends | nbquiz/testbank.py:31-35 | the classes collected from a namespace are appended after the questions already loaded |
| LegacyTestBank.Collect | nbquiz/testbank.py:31-35 | definition of the classes `_load` appends; `CollectShift` and `CollectAppends` state them |
| LegacyTestBank.LoadTwiceAppendsTwice | nbquiz/testbank.py:31-35 | loading the same file twice appends its questions twice |
| LegacyTestBank.AddPostingsSpec | nbquiz/testbank.py:42-46 | each element's list grows by the question once per occurrence; nothing else changes |
| LegacyTestBank.IndexQuestionSpec | nbquiz/testbank.py:41-58 | one question's turn adds its postings to all three indexes |
| LegacyTestBank.RebuildPostings | nbquiz/testbank.py:41-58 | a successful rebuild lists under each tag, required token and forbidden token exactly the questions naming it, in `_questions` order and with multiplicity |
| LegacyTestBank.AddPostings | nbquiz/testbank.py:42-46 | definition of appending a question to each element's list; `AddPostingsSpec` states it |
| LegacyTestBank.IndexQuestion | nbquiz/testbank.py:41-58 | definition of one question's turn of the rebuild; `IndexQuestionSpec` states it |
| LegacyTestBank.Rebuild | nbquiz/testbank.py:37-58 | definition of the rebuild, question by question; `RebuildPostings` states it |
| LegacyTestBank.KeysAreNamed | nbquiz/testbank.py:38-46 | after the reset and rebuild a tag is a key exactly when some question names it, and its list is that question list |
| LegacyTestBank.LegacyBank.constructor | nbquiz/testbank.py:14-16 | a new bank has no questions and empty indexes |
| LegacyTestBank.LegacyBank.Append | nbquiz/testbank.py:42-46 | the inner loop appends as `AddPostings` describes |
| LegacyTestBank.LegacyBank.IndexOne | nbquiz/testbank.py:41-58 | one question's turn updates the indexes as `IndexQuestion` describes |
| LegacyTestBank.LegacyBank.Reindex | nbquiz/testbank.py:37-58 | the indexes are reset, then rebuilt over all questions as `Rebuild` describes |
| LegacyTestBank.LegacyBank.LoadFile | nbquiz/testbank.py:18-58 | the new classes are appended to `_questions`, then the indexes are rebuilt from empty over all of them |
| Checker.TaggedWith | src/nbquiz/cli/test.py:27 | a cell without metadata or tags is not tagged; searching a tag list can only raise `TypeError` |
| Checker.Tagged | src/nbquiz/cli/test.py:24-28 | the comprehension yields exactly the indices of the tagged cells, in increasing order |
| Checker.CellForTag | src/nbquiz/cli/test.py:23-28 | `cell_for_tag` returns the first tagged cell in notebook order, and `IndexError` exactly when none is tagged |
| Checker.CellForTagIgnoresSource | src/nbquiz/cli/test.py:57-63 | rewriting a cell's source does not change which cell a tag finds |
| Checker.TaggedSame | src/nbquiz/cli/test.py:24-28 | cells that agree on carrying a tag give the same tagged indices |
| Checker.Outputs | src/nbquiz/cli/test.py:32 | `cell["outputs"]` succeeds exactly when the cell has outputs |
| Checker.AnyEname | src/nbquiz/cli/test.py:32 | `any(...)` is true exactly when some output has `ename` |
| Checker.HasError | src/nbquiz/cli/test.py:31-32 | `has_error` is true exactly when the outputs are non-empty and one has `ename`; no outputs key raises `KeyError` |
| Checker.FirstWhere | src/nbquiz/cli/test.py:36-37 | the search returns the first output the test accepts, and stops there |
| Checker.ErrorOfAgreesWithHasError | src/nbquiz/cli/test.py:35-39 | for an erroring cell `get_error` does not raise its `ValueError`, and what it returns is `ename`/`evalue` of an output with `ename`; for a cell without an error it raises that `ValueError` |
| Checker.GetError | src/nbquiz/cli/test.py:35-39 | the loop returns the first output with `ename`, or raises |
| Checker.GetHtml | src/nbquiz/cli/test.py:42-46 | the loop returns the first `text/html` data, or raises |
| Checker.AddPathLinesSplit | src/nbquiz/cli/test.py:61-62 | the `add_path` lines follow the order of the paths |
| Checker.WithSource | src/nbquiz/cli/test.py:58 | assigning one cell's `source` changes that cell only |
| Checker.AppendPaths | src/nbquiz/cli/test.py:61-63 | the testbank cell becomes its source, a `bank.add_path` line per path in order, then `bank.load()`; the other cells are unchanged |
| Checker.Prepare | src/nbquiz/cli/test.py:57-63 | the student's code replaces the `student` cell's source, then the testbank cell gets the paths; a failed lookup keeps what was written before it |
| Checker.LadderPriority | src/nbquiz/cli/test.py:85-117 | the status is 10, 11, 12 or 13 for the first of student, testbank, runner, checker that errored, else 0; 10 to 12 print `ename: evalue` of that cell, 13 and 0 the runner's HTML |
| Checker.Classify | src/nbquiz/cli/test.py:85-117 | the four lookups, then the `if`/`elif` ladder, give what `Outcome` describes |
| Checker.ErrorOf | src/nbquiz/cli/test.py:35-39 | definition of what `get_error` returns or raises; `ErrorOfAgreesWithHasError` states it |
| Checker.HtmlOf | src/nbquiz/cli/test.py:42-46 | definition of what `get_html` returns or raises; `Checker.GetHtml` states it |
| Checker.TestbankSource | src/nbquiz/cli/test.py:61-63 | definition of the testbank cell's new source; `AppendPaths` and `Prepare` state it |
| Checker.Outcome | src/nbquiz/cli/test.py:85-117 | definition of the exit status and report; `Checker.Classify` states it |
| Checker.Ladder | src/nbquiz/cli/test.py:91-115 | definition of the `if`/`elif` ladder over the four cells; `LadderPriority` states it |
| Checker.Report | src/nbquiz/cli/test.py:93-95 | definition of one failing cell's status and its printed error line |
| CanvasExport.ItemRenders | src/nbquiz/canvas/export.py:84 | one render per item, in order |
| CanvasExport.RenderItem | src/nbquiz/canvas/export.py:54-57 | definition of an item's render, title and HTML escaped; `ItemRenders` states it |
| CanvasExport.RenderSection | src/nbquiz/canvas/export.py:82-85 | definition of `Section.render`; `RendersAppend` states how it grows |
| CanvasExport.RenderAssessment | src/nbquiz/canvas/export.py:98-103 | definition of `Assessment.render`; `AssessmentAppend` states how it grows |
| CanvasExport.RenderMeta | src/nbquiz/canvas/export.py:117-123 | definition of `AssessmentMeta.render`, title and description escaped |
| CanvasExport.RenderResource | src/nbquiz/canvas/export.py:135-149 | definition of the two resource renders, a file's name escaped; `ResourceRenders` states it |
| CanvasExport.RenderManifest | src/nbquiz/canvas/export.py:161-164 | definition of `Manifest.render`, the resources' renders joined by newlines |
| CanvasExport.EntryRenders | src/nbquiz/canvas/export.py:102 | one render per question entry, in order |
| CanvasExport.ResourceRenders | src/nbquiz/canvas/export.py:163 | one render per resource, in order |
| CanvasExport.RendersAppend | src/nbquiz/canvas/export.py:82-85 | a list's renders joined by newlines grow by the new element's render, after a newline unless the list was empty, as a section's items, an assessment's questions and a manifest's resources are joined |
| CanvasExport.AssessmentAppend | src/nbquiz/canvas/export.py:98-103 | appending a question to an assessment appends its render, after a newline, to the joined questions passed to the template |
| CanvasExport.IdSource.constructor | src/nbquiz/canvas/export.py:34-36 | no identifier has been drawn yet |
| CanvasExport.IdSource.Next | src/nbquiz/canvas/export.py:34-36 | each chunk draws the next identifier |
| CanvasExport.TextForValidated | src/nbquiz/canvas/export.py:236 | asking a validated class again gives the same text |
| CanvasExport.AskQuestion | src/nbquiz/canvas/export.py:236 | `question.question()` validates the class and returns its text |
| CanvasExport.AskAgain | src/nbquiz/canvas/export.py:245 | a member that may already be validated gives the text it gave the first time |
| CanvasExport.Texts | src/nbquiz/canvas/export.py:244-247 | one text per member |
| CanvasExport.Collected | src/nbquiz/canvas/export.py:244-247 | all texts in order, or the first member's error |
| CanvasExport.CollectedFirstError | src/nbquiz/canvas/export.py:244-247 | the comprehension raises the first member's error |
| CanvasExport.CollectedAllOk | src/nbquiz/canvas/export.py:244-247 | when every member renders, the comprehension completes |
| CanvasExport.AskMember | src/nbquiz/canvas/export.py:244-247 | one pass of the comprehension: the text is `question()` of member i on its dictionary before the loop, and every member keeps its dictionary or its validated one |
| CanvasExport.AskAll | src/nbquiz/canvas/export.py:244-247 | `question()` of each member in turn, stopping at the first raise |
| CanvasExport.EssayItems | src/nbquiz/canvas/export.py:244-247 | one essay item per member |
| CanvasExport.EssayItemsAt | src/nbquiz/canvas/export.py:244-247 | item k is member k's, titled with its name, holding its text as HTML, with the k-th identifier drawn |
| CanvasExport.EssayItemsTitles | src/nbquiz/canvas/export.py:239-249 | a group's items are essay items titled with the members' names, in member order |
| CanvasExport.Export.constructor | src/nbquiz/canvas/export.py:172-179 | the metadata and resource refer to the quiz's id; the manifest starts with exactly the assessment resource; no questions and no files |
| CanvasExport.Export.AddQuestion | src/nbquiz/canvas/export.py:233-237 | exactly one essay item titled with the class name is appended; a raise leaves the quiz unchanged |
| CanvasExport.Export.GroupItems | src/nbquiz/canvas/export.py:244-247 | the comprehension's items, each drawing the next identifier |
| CanvasExport.Export.AddGroup | src/nbquiz/canvas/export.py:239-249 | exactly one section titled "Group" is appended, with one item per member in member order, or the first member's error with the quiz unchanged |
| CanvasExport.Export.AddSection | src/nbquiz/canvas/export.py:241-249 | the section is appended after its items draw their identifiers |
| CanvasExport.Export.AddFileResources | src/nbquiz/canvas/export.py:254-256 | one `FileResource` per added file, in order, and a copy of each into the archive |
| CanvasExport.Export.Write | src/nbquiz/canvas/export.py:251-267 | the file resources, then the `Upload` item after all questions, then the four written entries |
| CanvasExport.FileResources | src/nbquiz/canvas/export.py:255 | resource k names file k's base name and draws the k-th identifier |
| CanvasExport.FileCopies | src/nbquiz/canvas/export.py:256 | file k is copied under `web_resources/Uploaded Media/` and its base name |
| CanvasExport.DrawFiles | src/nbquiz/canvas/export.py:254-256 | the loop over the files gives `FileResources` and `FileCopies` |
| CanvasYaml.ShapeOf | src/nbquiz/canvas/export.py:206-223 | the `match` cases are tried in order: the group mapping, then name and params, then a string; the first wins |
| CanvasYaml.Keywords | src/nbquiz/canvas/export.py:197 | `**params` needs string keys other than `cls`, else `TypeError`; `classname` and `extra_bases` are taken out |
| CanvasYaml.KeywordsParams | src/nbquiz/canvas/export.py:197 | the variant's parameters are exactly the other entries of the mapping |
| CanvasYaml.KwargsOf | src/nbquiz/canvas/export.py:197 | only a mapping can be unpacked, else `TypeError` |
| CanvasYaml.ExtraBases | src/nbquiz/question.py:146-150 | a falsy `extra_bases` adds nothing; a truthy one must be an iterable of class objects, each becoming a base with the attributes it provides, else `type()` raises `TypeError` |
| CanvasYaml.Resolve | src/nbquiz/canvas/export.py:196-197 | `find("@"+name).variant` succeeds exactly for a registered question with unpackable params; an unknown tag raises `find`'s `ValueError` and a group has no `variant` |
| CanvasYaml.MakeVariant | src/nbquiz/question.py:130-151 | `variant(**params)` from YAML: extra bases that are not an iterable of class objects raise `TypeError`; otherwise it succeeds exactly when the base validates, the name is a string and the new class validates, and it returns a fresh class built as `variant()` builds it, the extra bases after the base's bases |
| CanvasYaml.Lookup | src/nbquiz/canvas/export.py:196 | `bank.find(tag)` succeeds exactly for a registered tag |
| CanvasYaml.LookupIsFind | src/nbquiz/testbank.py:55-60 | the lookup on the map is `find` |
| CanvasYaml.MemberPick | src/nbquiz/canvas/export.py:192-203 | in a group, a group mapping and a string naming a group raise "Canvas does not allow groups in groups."; a string naming a question yields it; name and params yield its variant; anything else is skipped |
| CanvasYaml.Picks | src/nbquiz/canvas/export.py:190-203 | the generator yields nothing for skipped entries |
| CanvasYaml.PicksOutcome | src/nbquiz/canvas/export.py:190-203 | the generator runs to its end exactly when every entry resolves; otherwise the first failing entry's error |
| CanvasYaml.NoGroupsInGroups | src/nbquiz/canvas/export.py:193-194 | a nested group, as a mapping or by name, makes the whole group fail |
| CanvasYaml.ElaborateOne | src/nbquiz/canvas/export.py:192-203 | one step yields what `MemberPick` promises; an entry whose pick renders always yields |
| CanvasYaml.PicksStep | src/nbquiz/canvas/export.py:191 | each entry of the `for` loop extends the yielded classes by its own pick, unless it is skipped |
| CanvasYaml.ElaborateStops | src/nbquiz/canvas/export.py:190-203 | an entry that fails to resolve, or asks for a variant, means the group cannot be elaborated from lookups alone |
| CanvasYaml.Unblocked | src/nbquiz/canvas/export.py:190-203 | predicate: every entry resolves without a variant, or every entry resolves to a pick that renders; `ElaborateAll` ensures the generator then runs to its end |
| CanvasYaml.MemberRenders | src/nbquiz/canvas/export.py:191-203 | predicate: an entry of `elaborate_group` resolves and its pick renders; the success condition of `ElaborateAll` and `GroupEntryFixed` |
| CanvasYaml.PickRenders | src/nbquiz/canvas/export.py:196-203 | predicate: `question()` renders the class a pick asks for, and a variant's base validates; the success condition of `AddOneOf`, `AddVariantOf` and `GroupEntryFixed` |
| CanvasYaml.PickAdded | src/nbquiz/canvas/export.py:233-249 | predicate: the item added for a pick is titled with the class's `__name__` and holds its `question()` text as HTML; `GroupEntryFixed` states its items with it |
| CanvasYaml.StepRenders | src/nbquiz/canvas/export.py:207-220 | predicate: every class a top-level step asks for renders, and a group mapping never does; the success condition of `Apply` |
| CanvasYaml.ListRenders | src/nbquiz/canvas/export.py:205 | predicate: `test["questions"]` is present and iterable, and each entry renders; the success condition of `AddListed` and `FromYaml` |
| CanvasYaml.ElaborateAll | src/nbquiz/canvas/export.py:190-203 | running the generator over the entries yields one class per non-skipped entry, in order, as its pick promises; when every entry resolves to a pick that renders, the generator runs to its end |
| CanvasYaml.Elaborate | src/nbquiz/canvas/export.py:190-203 | `list(elaborate_group(...))` has one class per non-skipped entry, in entry order, each as its pick promises, a variant being a fresh class; a failing pick makes it fail, and without variants to build it cannot fail; when every entry resolves to a pick that renders, it succeeds |
| CanvasYaml.ElaboratePicks | src/nbquiz/canvas/export.py:190-203 | the elaborated members match the picks one for one and in order, each a class of the bank or a fresh variant whose `question()` text is the text its pick asks for; when every entry resolves to a pick that renders, elaboration succeeds |
| CanvasYaml.PicksInBank | src/nbquiz/canvas/export.py:192-196 | every class a group's entries name, directly or as the base of a variant, is a class of the bank |
| CanvasYaml.PicksRender | src/nbquiz/canvas/export.py:190-203 | when every entry resolves to a pick that renders, the picks the generator keeps all render |
| CanvasYaml.PicksText | src/nbquiz/canvas/export.py:190-203 | each elaborated member's `question()` text is the text its pick asks for |
| CanvasYaml.PickText | src/nbquiz/canvas/export.py:192-203 | one elaborated member's `question()` text is the text its pick asks for: the bank's class with its validated dictionary, or the variant built from it |
| CanvasYaml.Plan | src/nbquiz/canvas/export.py:205-223 | at top level, a string naming a question adds it and one naming a group adds the group; the group mapping goes to the group branch; any other shape raises "I don't understand this" |
| CanvasYaml.PlanVariant | src/nbquiz/canvas/export.py:210-213 | a name-and-params entry adds that question's variant |
| CanvasYaml.GroupEntryAsWritten | src/nbquiz/canvas/export.py:208 | the group branch as written always fails: `QuestionGroup(group, list(...))` raises `TypeError` once the members are elaborated, even when every member renders |
| CanvasYaml.GroupEntryFixed | src/nbquiz/canvas/export.py:208 | as intended, the group branch appends one section titled "Group" with an item per member, in entry order, each titled with the member's name (a variant's derived name) and holding as HTML the text its pick asks `question()` for; when every entry resolves to a pick that renders, it succeeds |
| CanvasYaml.AddPicked | src/nbquiz/canvas/export.py:239-249 | a section of members elaborated from picks holds, in order, an item per member titled and holding the text its pick asks for; when every pick renders, it is appended |
| CanvasYaml.AddEntry | src/nbquiz/canvas/export.py:206-223 | one pass appends exactly the entry `Plan` promises, with its texts, or raises its error; a group mapping always raises; an entry whose plan renders is always added |
| CanvasYaml.Apply | src/nbquiz/canvas/export.py:208-221 | a planned step appends one item (a question or its variant) or one section (a group) holding the texts `question()` gives, and keeps the bank's validated dictionaries; the group-mapping step always raises; a step whose classes all render always succeeds |
| CanvasYaml.AddOneOf | src/nbquiz/canvas/export.py:215-219 | a name of a question class appends its essay item, holding its `question()` text as HTML; a question whose text renders is always added |
| CanvasYaml.AddVariantOf | src/nbquiz/canvas/export.py:210-213 | a name with parameters appends the variant's essay item, titled with the variant's name and holding the text of the base's validated dictionary with the parameters on top; it succeeds whenever the base validates and the variant's text renders |
| CanvasYaml.VariantAsked | src/nbquiz/question.py:130-151 | the class `variant()` returns renders as the variant asked of its base |
| CanvasYaml.MakeAsked | src/nbquiz/question.py:130-151 | the variant built for the quiz is made as `variant()` makes it, its dictionary the base's validated one with the parameters on top, validated again; it succeeds whenever the base validates and the variant's text renders |
| CanvasYaml.VariantAskedOk | src/nbquiz/question.py:130-151 | a variant whose text renders has usable extra bases and a string name, and its dictionary validates |
| CanvasYaml.AddMembersOf | src/nbquiz/canvas/export.py:215-221 | a name of a group appends its section, an item per member holding the member's text; a group whose members' texts all render is always added |
| CanvasYaml.AddAsked | src/nbquiz/canvas/export.py:233-237 | `add_question` appends an item holding the text of the class asked; a class whose text renders is always added |
| CanvasYaml.AskRenders | src/nbquiz/canvas/export.py:233-237 | `question()` itself renders every class asked as `AskedText` says |
| CanvasYaml.AskedText | src/nbquiz/canvas/export.py:236 | definition of the text `question()` gives for the class asked; `AskRenders` and `VariantAsked` state that `question()` gives it |
| CanvasYaml.AddItem | src/nbquiz/canvas/export.py:233-237 | one essay item titled with the class name is appended, holding as HTML the text `question()` gave; a `question()` that raises is passed on; when `question()` returns, the item is added |
| CanvasYaml.AddSectionOf | src/nbquiz/canvas/export.py:239-249 | one section titled "Group" is appended, whose items are titled with the members' names and hold their texts, in member order; the first member whose `question()` raises is passed on; when every member's `question()` returns, the section is added |
| CanvasYaml.AddEntries | src/nbquiz/canvas/export.py:205-223 | the entries are added in order, one quiz entry each with its texts, stopping at the first raise; when every entry renders, all are added |
| CanvasYaml.AddListed | src/nbquiz/canvas/export.py:205-223 | after the export exists, `test["questions"]` must be present and iterable, and its entries become the quiz's entries one for one, in order; when `questions` is iterable and every entry renders, the quiz is built |
| CanvasYaml.FromYaml | src/nbquiz/canvas/export.py:181-225 | `from_yaml` reads `title` and `description`, builds the export with only the assessment resource, and adds one quiz entry per top-level entry in order, each holding the texts `question()` gives for the bank's classes as they were on entry; it succeeds whenever `title` is present, `description` is a string, `questions` is iterable and every entry renders |
| CanvasYaml.FromYamlWith | src/nbquiz/canvas/export.py:181-225 | `from_yaml` given any record of the bank's validated dictionaries that agrees with the bank, with the same entries and the same success condition |
| CanvasYaml.QuizFromHasNoGroups | src/nbquiz/canvas/export.py:206-208 | a quiz is produced only when no top-level entry is a group mapping |
| CanvasYaml.Added | src/nbquiz/canvas/export.py:205-223 | definition of the quiz entry a successful step appends; the `AddEntry` and `Apply` rows state it |
| CanvasYaml.QuizFrom | src/nbquiz/canvas/export.py:205-223 | definition of a quiz whose entries are, one for one, what the document's entries add; `FromYaml` states it |

## Left out

- PyModel.Iterate: tuples and sets are represented as `VList`, since order and duplicates do not change the `all`/`any` token checks; objects of user classes that define `__iter__` are not modelled, so no such object is iterable in the model.
- Strings: case mapping and whitespace are ASCII and Latin-1 only. `textwrap.dedent` cuts lines at `\n` only and counts spaces and tabs as indentation. `str.format` is simplified to `{name}` fields and `{{`/`}}` escapes, with no format specs, conversions or attribute access. A field whose name is empty or all digits is positional and raises `IndexError`.
- `str()` of lists, dicts, types, class objects and functions is an abstract function in `PyModel.Env`. Only strings, `None`, booleans and integers are spelled out.
- `isinstance` and `issubclass` know the framework kinds and built-in types only. There are no user subclasses and no method resolution order. Attribute lookup is the class's own dictionary over one inherited snapshot.
- Executing a notebook's source is an input. So is the namespace it binds, together with the facts the notebook analysis records about each cell. Repeated execution yields the same class objects.
- gRPC server and client, the command line front ends, and the Markdown-to-HTML conversion are not part of this model.
- Logging and `print` calls are not modelled, and neither are the `unittest` machinery or the `super().setUp()` calls into it.
- The `source()` and the `questions`/`paths` property getters of `_TestBank` are plain field reads and have no members of their own.
- `CanvasExport.add_file` calls the nonexistent `p.exits()`. It raises `AttributeError` at every call, so the file list is never filled from outside. The model keeps the list and `write`'s loop over it.
- `zipfile`, `uuid`, the Jinja templates, XML escaping and `md_to_canvas_html` are parameters. Their outputs are uninterpreted.
- `yaml.load` is not modelled. `from_yaml` takes the loaded document as a value.
- A callable `VObject` is never produced. Calling the returned wrappers is modelled by `Question.CallChecked` and `LegacyQuiz.CallPositional` only. The cell wrappers' `run` of the cell is not modelled.
- CanvasYaml.MakeVariant: the `TypeError`s `type()` raises for a base listed twice, an inconsistent method resolution order, a layout conflict or a class that cannot be subclassed are not modelled. The attributes an extra base provides come from `PyModel.Env`.
- Keywords: does not state that the parameters keep the mapping's order.
- KeywordsParams: does not state that the parameters keep the mapping's order.
- Export.AddGroup: no identifier is drawn when some member's `question()` raises. The source draws identifiers while it runs the comprehension, which only changes identifiers that no quiz ever shows.
- CanvasYaml.FromYaml: follows the code as written. Its group branch always raises, as "## Findings" explains.
- LegacyQuiz.CellSetUp: a `FunctionInfo` with a non-string name raises `TypeError` in the model. The source would store the wrapper under that value.
- LegacyTestBank indexes: `_required` and `_forbidden` are not defined before the first `_load`. The model starts them empty.
- LegacyTestCase.Variant: a base listed twice in `bases` does not raise. Python's duplicate-base `TypeError` is not modelled.
- `ValueError` messages are modelled as fixed texts. Formatted parts such as paths and values go through `PyModel.Env`.
- `find`'s `len(found) == 0` branch is unreachable, because `match` never returns an empty list. The model has no such branch.
- Question.ValidQuestionRenders, TestCase.ValidQuestionRenders, LegacyTestCase.QuestionTextReportsMissingKey: a docstring with a field opened on one line and closed on a later one is not covered, because dedenting can change such a field's name.
- A non-string `description` makes the model raise `TypeError` before `md_to_canvas_html` is called. The title goes through `str()`.

## Findings

| source | as written | input that shows it | evidently intended | confidence | as-written member | corrected member |
|---|---|---|---|---|---|---|
| src/nbquiz/canvas/export.py:208 | `QuestionGroup(group, list(elaborate_group(questions)))` passes two positional arguments to a constructor that takes one (src/nbquiz/question.py:162-163) | a top-level entry `{group: g, questions: [Q]}` with `Q` a registered question | `export.add_group(QuestionGroup(list(elaborate_group(questions))))` | not executed | CanvasYaml.GroupEntryAsWritten | CanvasYaml.GroupEntryFixed |

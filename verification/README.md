# A verified model of the `apps/libs` layer

The `apps/libs` package of this Django project holds the shared plumbing
behind every CRUDL (create, read, update, delete, list) screen: navigation
actions and the per-view navbar menus built from a model's URL
capabilities, list and detail "perspectives" (grouping, sorting and
reverse-relation views of a list), the generic list, detail, edit, delete,
date-archive and multiple-form views, the success-URL and `next`-URL
rules, a one-to-one consistency validator, the `grouping` template tag,
the emoji-aware `split_first`, the query-string helpers and the `scaffold`
management command's field-code generation.

This project restates that layer in Dafny, one module per source file:

| module | file | models |
|---|---|---|
| `Actions` | `actions.dfy` | actions, their URLs, `ActionList` subtraction, `ActionMixin.get_actions` |
| `Menu` | `menu.dfy` | `make_*_link`, `CRUDLMenu`'s navbar per view kind, `NavbarMixin` |
| `Perspectives` | `perspective.dfy` | list perspectives from fields, the active and the other perspectives |
| `DetailViews`, `ListViews`, `EditViews`, `DateViews`, `MultipleViews` | `detail_views.dfy` … `multiple_views.dfy` | the generic views under `views/` |
| `ViewsMixin` | `views_mixin.dfy` | object names, `CopyMixin`, success and `next` URLs |
| `Inconsistency` | `inconsistency.dfy` | `OneToOneInconsistencyValidator` (a class) |
| `Groups` | `groups.dfy` | the `grouping` tag: syntax, sort, adjacent grouping, labels |
| `StrUtils` | `str_utils.dfy` | `_get_first_char`, `split_first`, `is_int` |
| `QueryStrings`, `Urls`, `UrlTags` | `query.dfy`, `urls.dfy`, `url_tags.dfy` | query strings, `remove_next_url`, `remove_query_string`, `concat_next_url`, `inherit_next_url` |
| `Collections`, `Http`, `Admin`, `DbModels`, `FormFields` | one file each | the small utilities of the same names |
| `TotalTag`, `ViewTags`, `ModelTags`, `FormTags` | one file each | the `total`, `startswith`, `list_fields` and `has_multipart` filters |
| `Scaffold` | `scaffold.dfy` | field-spec-to-code mapping and name derivations |
| `Errors`, `Fields`, `Text`, `Seqs` | shared | Python exceptions as `Result` errors, field declarations, string and sequence helpers |

Framework calls become inputs. A `hasattr` probe on a model is a key of
its URL-capability map, and a model's fields are a sequence of field
declarations. A queryset is a sequence of records, and "today" is a
parameter. A Python exception is an `Err` carrying its kind
(`ImproperlyConfigured`, `AttributeError`, `IndexError`, …). Code that loops
and mutates in the source (`_get_first_char`, `total`, `list_fields`,
`get_model_fields`, `CopyMixin.get_initial`, the validator, the
navbar flattening, …) is a `method` with loop invariants, proved against a
specification function. The properties of that function are then proved as
lemmas.

## Model

| member | source | states |
|---|---|---|
| Actions.Action.ResolvedUrl | apps/libs/actions.py:97-145 | reading `url` gives the stored url of the plain actions, asks the instance's `get_absolute_url`/`get_delete_url`/`get_edit_url`/`get_copy_url` for the instance actions (an AttributeError when the instance lacks it, a NotImplementedError for the `get_edit_url` an `ActionMixin` class inherits), and fails on a divider, which has no `url` |
| Actions.Instance.MissingEditUrl | apps/libs/actions.py:14-16 | reading a missing `get_edit_url` raises NotImplementedError exactly for an `ActionMixin` instance, and AttributeError otherwise |
| Actions.NewAddAction | apps/libs/actions.py:71-75 | an add action defaults to the caption "追加" and the plus-circle icon, and its url is the one given |
| Actions.NewBulkAddAction | apps/libs/actions.py:78-81 | a bulk-add action defaults to the caption "一括追加", and its url is the one given |
| Actions.NewSortAction | apps/libs/actions.py:84-87 | a sort action defaults to the caption "ソート", and its url is the one given |
| Actions.NewSearchAction | apps/libs/actions.py:90-94 | a search action defaults to the caption "検索" and the search icon, and its url is the one given |
| Actions.NewDetailAction | apps/libs/actions.py:97-105 | a detail action defaults to the caption "詳細", is not dangerous, and its url is the instance's absolute url |
| Actions.NewDeleteAction | apps/libs/actions.py:108-117 | a delete action defaults to the caption "削除", is marked dangerous, and its url is the instance's delete url |
| Actions.NewEditAction | apps/libs/actions.py:120-128 | an edit action defaults to the caption "編集", is not dangerous, and its url is the instance's edit url |
| Actions.NewCopyAction | apps/libs/actions.py:131-140 | a copy action defaults to the caption "複製" and the copy icon, and its url is the instance's copy url |
| Actions.GetEditAction | apps/libs/actions.py:14-23 | the edit action is not a divider and its url is the instance's edit url; an `ActionMixin` instance without its own `get_edit_url` makes reading it raise NotImplementedError |
| Actions.GetActions | apps/libs/actions.py:25-31 | one copy action, whose url is the instance's copy url, exactly when the instance has `get_copy_url`; otherwise no action |
| Actions.SubtractAction | apps/libs/actions.py:153-155 | subtracting an action succeeds exactly when every url the filter reads can be read, and then keeps, in order, the dividers and the entries whose url differs from the operand's |
| Actions.Subtract | apps/libs/actions.py:149-155 | a right operand that is not an `Action` is an `ImproperlyConfigured` error; otherwise as `SubtractAction` |
| Actions.SubtractIsSubsequence | apps/libs/actions.py:154-155 | the result of a subtraction is a subsequence of the list, never longer |
| Actions.SubtractKeepsDividers | apps/libs/actions.py:154 | the dividers of the result are exactly the dividers of the list |
| Actions.SubtractRemovesUrl | apps/libs/actions.py:153-154 | every entry of the result is a divider or has a url different from the operand's |
| Actions.SubtractIdempotent | apps/libs/actions.py:149-155 | subtracting the same action again changes nothing |
| Actions.DividerAlwaysKept | apps/libs/actions.py:143-154 | a list of one divider survives the subtraction of any action, even one without a url |
| Actions.SameUrlCancels | apps/libs/actions.py:153-154 | two non-divider actions with the same url cancel each other |
| Actions.AddThenDividerExample | apps/libs/actions.py:149-155 | `[AddAction("/add"), DividerAction()] - AddAction("/add")` is `[DividerAction()]` |
| Actions.SubtractDividerFails | apps/libs/actions.py:154 | subtracting a divider from a list holding an ordinary action fails, since the divider has no `url` |
| Menu.MakeAddLink | apps/libs/menu.py:12-16 | an add link labelled "<verbose name>を追加" exactly when the model has `get_add_url`, otherwise `NotImplementedError` |
| Menu.MakeBulkAddLink | apps/libs/menu.py:19-23 | a bulk-add link labelled "<verbose name>を一括追加" exactly when the model has `get_bulk_add_url`, otherwise `NotImplementedError` |
| Menu.MakeListLink | apps/libs/menu.py:26-33 | a link to the model's list url exactly when it has `get_list_url`; a truthy label wins over the default "<verbose name>一覧" |
| Menu.MakeSortLink | apps/libs/menu.py:36-40 | a sort link labelled "<verbose name>をソート" exactly when the model has `get_sort_url`, otherwise `NotImplementedError` |
| Menu.MakeFilterLink | apps/libs/menu.py:43-47 | a search link labelled "<verbose name>を検索" exactly when the model has `get_filter_url`, otherwise `NotImplementedError` |
| Menu.MakeLatestYearLink | apps/libs/menu.py:50-54 | a link labelled "<verbose name>(今年)" exactly when the model has `get_latest_year_url`, otherwise `NotImplementedError` |
| Menu.MakeLatestMonthLink | apps/libs/menu.py:57-61 | a link labelled "<verbose name>(今月)" exactly when the model has `get_latest_month_url`, otherwise `NotImplementedError` |
| Menu.LinkFor | apps/libs/menu.py:12-61 | every `make_*_link` succeeds exactly when the model has the matching url method, and then links to that method and is not a divider |
| Menu.CapabilityLinks | apps/libs/menu.py:87-102 | the `hasattr`-guarded links are never dividers and are at most one per probed capability |
| Menu.CapabilityLinksOrder | apps/libs/menu.py:87-102 | one link per probed capability the model has, in probing order, each pointing at that capability's url |
| Menu.CapabilityLinksSnoc | apps/libs/menu.py:118-132 | probing one more capability appends its link exactly when the model has it |
| Menu.CapabilityLinkPresent | apps/libs/menu.py:87-132 | the link for a capability is present exactly when it was probed and the model has it |
| Menu.ArchiveShape | apps/libs/menu.py:122 | the tuple is `top_link`, the action links, the extra menu and `all_menu`, in that order |
| Menu.ExtendListCommonLinks | apps/libs/menu.py:87-102 | appends to the caller's links the add, bulk-add, sort and filter links the model offers, in that order, keeping what was there |
| Menu.Singles | apps/libs/menu.py:76-134 | unpacking actions into the tuple keeps one entry per action, in order |
| Menu.CRUDLMenu.ModelTopLink | apps/libs/menu.py:71-74 | the model's own `get_model_top_link()` when it has one, otherwise the default list link |
| Menu.CRUDLMenu.AddNavbarLinks | apps/libs/menu.py:70-76 | succeeds exactly when the model top link exists and `all_menu` can be subtracted by it; the tuple is `top_link`, the model top link, the extra menu, then `all_menu` minus the model top link |
| Menu.CRUDLMenu.FilterNavbarLinks | apps/libs/menu.py:78-84 | needs both the add and the list link; the tuple is `top_link`, the add link, the list link, the extra menu, then `all_menu` minus the list link |
| Menu.CRUDLMenu.ListNavbarLinks | apps/libs/menu.py:104-110 | needs the list link; `top_link`, the common links, the extra menu, then `all_menu` minus the list link |
| Menu.CRUDLMenu.YearArchiveNavbarLinks | apps/libs/menu.py:112-122 | never fails: `top_link`, the common links plus the latest-month link when offered, the extra menu, then `all_menu` unchanged |
| Menu.CRUDLMenu.MonthArchiveNavbarLinks | apps/libs/menu.py:124-134 | never fails: `top_link`, the common links plus the latest-year link when offered, the extra menu, then `all_menu` unchanged |
| Menu.CRUDLMenu.NavbarLinksFor | apps/libs/menu.py:136-142 | the bulk-add, detail, edit, delete, sort, select and formset names are aliases of `add_navbar_links`; every successful tuple starts with `top_link` and has at least two entries |
| Menu.ListNavbarOmitsOwnLink | apps/libs/menu.py:110 | on the list page, every non-divider entry of the trailing submenu has a url other than the list url |
| Menu.ListNavbarShape | apps/libs/menu.py:104-110 | the list page's entries between `top_link` and the submenu are the common links then the extra menu |
| Menu.DefaultNavbarLinks | apps/libs/menu.py:184-186 | a view's hook either raises its error or returns the tuple of the `CRUDLMenu` method it names |
| Menu.InitialNavbarLinks | apps/libs/menu.py:165-174 | a configured menu decides through `default_navbar_links`; without one, a truthy `get_navbar_links()` is used, otherwise `LINK_TO_ADMIN`; without a menu the result is always truthy |
| Menu.Navbar.constructor | apps/libs/menu.py:165-174 | stores the navbar links that `__init__` computes |
| Menu.Navbar.ExtraContext | apps/libs/menu.py:188-208 | a single action becomes one link; a list or tuple becomes one menu item per entry, nested lists becoming submenus; anything else, `None` included, is `ImproperlyConfigured` |
| Perspectives.ListPerspectiveOf | apps/libs/perspective.py:120-142 | a non-parent foreign key, an integer field with choices or a boolean field gives a grouping perspective keyed by the field; a char field of at most 100 characters gives a sort perspective; an unset max_length fails with an unorderable comparison; a parent link, an integer field without choices, a longer char field and any other kind contribute nothing |
| Perspectives.ListPerspectives | apps/libs/perspective.py:115-144 | at most one perspective per field |
| Perspectives.ListPerspectivesErrPersists | apps/libs/perspective.py:119-142 | once a prefix of the fields fails, the whole field list fails with the same error |
| Perspectives.GetListPerspectives | apps/libs/perspective.py:115-144 | the loop that appends each field's perspective returns exactly the list perspectives of the fields |
| Perspectives.ListPerspectivesFollowFields | apps/libs/perspective.py:119-144 | the perspectives' keys are a subsequence of the field names, in declaration order |
| Perspectives.Keys | apps/libs/perspective.py:12 | one key per perspective, position by position |
| Perspectives.LookupKey | apps/libs/perspective.py:66 | the requested key when it is non-empty, else the default key when it is non-empty, else "_default" |
| Perspectives.FirstWithKey | apps/libs/perspective.py:68-72 | the perspective found has the key and belongs to the list; none is found exactly when no perspective has the key |
| Perspectives.FirstWithKeyIsFirst | apps/libs/perspective.py:68-70 | the perspective returned is the one at the first position holding the key |
| Perspectives.ListActivePerspective | apps/libs/perspective.py:58-72 | no perspective when the list is empty, otherwise the first perspective whose key is the looked-up key |
| Perspectives.DetailActivePerspective | apps/libs/perspective.py:158-168 | the first perspective whose key is the looked-up key |
| Perspectives.ActivePerspectiveAgrees | apps/libs/perspective.py:58-72 | the list and detail lookups agree on every input: the empty-list shortcut changes nothing |
| Perspectives.RemoveFirst | apps/libs/perspective.py:93 | list.remove succeeds exactly when the element is present, shortening the list by one; otherwise a ValueError |
| Perspectives.RemoveFirstAt | apps/libs/perspective.py:93 | the occurrence removed is the first: everything before and after it is kept in order |
| Perspectives.OtherPerspectives | apps/libs/perspective.py:89-97 | the default perspective is put first and then the active one removed, so with no active perspective the result is the perspectives themselves, and an active member of the list leaves as many as there were |
| Perspectives.ListContextData | apps/libs/perspective.py:74-99 | the title is the active perspective's label when one is active and the view's object name otherwise; the other perspectives are all but the active one |
| Perspectives.FirstWithKeyMember | apps/libs/perspective.py:68-70 | a perspective found by key is a member of the list |
| Perspectives.DisplayAs | apps/libs/perspective.py:101-106 | the active perspective's type, else "list" |
| Perspectives.GroupBy | apps/libs/perspective.py:108-113 | the grouping field exactly when a grouping perspective is active; anything else raises ImproperlyConfigured |
| Perspectives.SetupQueryset | apps/libs/perspective.py:45-53 | a list perspective reads all of its manager (and fails without one), a sort perspective orders by its field, anything else leaves the queryset unchanged |
| Perspectives.ListPerspectivesExample | apps/libs/perspective.py:120-142 | a foreign key "owner", a 100-character "title" and a 200-character "note" give a grouping by owner then a sort by title, with their Japanese labels |
| ViewsMixin.ObjectName | apps/libs/views_mixin.py:14-21 | a non-empty object_label wins, else the model's verbose name, else "未設定" |
| ViewsMixin.ObjectListName | apps/libs/views_mixin.py:28-35 | a non-empty object_label wins, else the model's verbose name followed by "一覧", else "未設定" |
| ViewsMixin.ObjectListNameExtends | apps/libs/views_mixin.py:28-35 | the list name is the object name with "一覧" appended exactly when it comes from the model's verbose name, and equal to it otherwise |
| ViewsMixin.SuccessUrl | apps/libs/views_mixin.py:104-119 | a set success_url wins, then the model's get_model_top_url, then its get_list_url; a URL exists exactly when one of them does, otherwise ImproperlyConfigured |
| ViewsMixin.SuccessCandidates | apps/libs/views_mixin.py:104-115 | exactly three candidates, in the order the method tries them |
| ViewsMixin.FirstPresent | apps/libs/views_mixin.py:104-119 | a URL is found exactly when some candidate is present, and it is the first present one |
| ViewsMixin.SuccessUrlIsFirstMatch | apps/libs/views_mixin.py:104-119 | get_success_url is the first-match rule over its three candidates |
| ViewsMixin.SuccessUrlEntry | apps/libs/views_mixin.py:124-127 | the success_url context entry is present exactly when the GET parameters hold "next", and equals it |
| ViewsMixin.SubmittedSuccessUrl | apps/libs/views_mixin.py:129-142 | the posted success_url, unchanged, when its query-stripped form resolves; otherwise the inherited success URL |
| ViewsMixin.SubmittedNextUrl | apps/libs/views_mixin.py:146-159 | the posted next, unchanged, when it resolves; otherwise the inherited redirect URL |
| ViewsMixin.SubmittedSuccessUrlIgnoresQuery | apps/libs/views_mixin.py:133-138 | two posted values that differ only in their query are accepted or refused together |
| ViewsMixin.SubmittedUrlsAgree | apps/libs/views_mixin.py:135-152 | for a value with no query and no fragment the two mixins apply the same test |
| ViewsMixin.GetSourceObject | apps/libs/views_mixin.py:49-56 | no src_model is ImproperlyConfigured, a missing URL argument a KeyError, an unknown key a 404, else the object found |
| ViewsMixin.ReadSource | apps/libs/views_mixin.py:74-82 | reading fails exactly when the name is neither "self" of a dict nor an attribute of the source, with an AttributeError |
| ViewsMixin.SameNamePairs | apps/libs/views_mixin.py:81-82 | a list copies each name onto itself, one step per name |
| ViewsMixin.CopyPairsErrPersists | apps/libs/views_mixin.py:74-82 | once a copy step fails, the whole copy fails with the same error |
| ViewsMixin.GetInitial | apps/libs/views_mixin.py:58-84 | the loop over copy_fields returns exactly the specified initial data: errors for a failed lookup, empty or string copy_fields, a missing attribute; otherwise the data after each write in order |
| ViewsMixin.Targets | apps/libs/views_mixin.py:74-82 | the keys written are exactly the targets of the copy steps |
| ViewsMixin.CopyPairsFrame | apps/libs/views_mixin.py:74-82 | the copy fails exactly when some step reads a missing attribute; otherwise it writes exactly the target keys and leaves every other initial key as it was |
| ViewsMixin.CopyPairsLastWins | apps/libs/views_mixin.py:74-78 | a key written by a step that no later step overwrites holds the value that step read |
| ViewsMixin.ListedFieldsCopied | apps/libs/views_mixin.py:80-82 | with a list of names every listed key holds the source's attribute of the same name |
| ViewsMixin.LastIndex | apps/libs/views_mixin.py:81-82 | a name in the list has a last position |
| DetailViews.GetDetailPerspectives | apps/libs/views/detail.py:43-63 | one related perspective per reverse relation that is not a parent link, in field order, keyed by the relation's name with its accessor and "<related verbose name>一覧"; every other field is ignored |
| DetailViews.RelatedPerspectives | apps/libs/views/detail.py:48-58 | one perspective per relation, keyed by its name and reading its accessor |
| DetailViews.ActiveDetailPerspective | apps/libs/views/detail.py:19-20 | a detail request selects a perspective exactly when some child relation has the looked-up key as its name, and it is a grouping related perspective with that key |
| DetailViews.RelatedPerspectivesAt | apps/libs/views/detail.py:48-58 | the perspective at each position is that of the relation at the same position |
| DetailViews.DetailContextData | apps/libs/views/detail.py:26-41 | with an active perspective its label titles the page and the list, which reads its accessor; without one the page is titled by the object name; the extra buttons are empty; a perspective without an accessor fails with AttributeError |
| DetailViews.DetailContextOfRelations | apps/libs/views/detail.py:26-63 | on a page whose perspectives come from its relations the context never fails, and a selected perspective lists some relation's accessor under "<related verbose name>一覧" |
| DetailViews.DetailNavbar | apps/libs/views/detail.py:15-17 | the detail page's navbar is the add-family menu |
| ListViews.GetPerspectives | apps/libs/views/list.py:27-32 | the inherited perspectives when there are some (or when they fail), else the perspectives derived from the model's fields |
| ListViews.GetPerspectivesIsDerived | apps/libs/views/list.py:27-32 | since the inherited perspectives are themselves derived from the model, the list page's perspectives are exactly the derived ones |
| ListViews.ListNavbar | apps/libs/views/list.py:23-25 | the model list's navbar is the list menu |
| ListViews.ParentObject | apps/libs/views/list.py:51-53 | the parent is looked up by the pk URL argument: KeyError without it, 404 when no record has it |
| ListViews.ChildExtraButtons | apps/libs/views/list.py:77-86 | exactly one "<child verbose name>を追加" link action to "<add url>?<parent key>=<parent id>" when the child model has an add URL, and no button otherwise |
| ListViews.ChildFilter | apps/libs/views/list.py:59-62 | the children are filtered on the single condition parent key = parent id |
| ListViews.ChildAddUrlCarriesFilter | apps/libs/views/list.py:59-82 | the add-child link parses back to the add URL with exactly one query parameter, the parent key, holding the child filter's value in decimal |
| ListViews.ChildListContextData | apps/libs/views/list.py:64-75 | the parent is the page's object, its str() the page's title, and the extra buttons are the add-child buttons |
| ListViews.ChildListNavbar | apps/libs/views/list.py:55-57 | the child list's navbar is the detail (add-family) menu |
| ListViews.InitGuardNeverFires | apps/libs/views/list.py:18-48 | the guard as written accepts every view, even one with neither model nor queryset, because a bound get_queryset is always truthy |
| ListViews.InitGuardAsWritten | apps/libs/views/list.py:18-21 | the guard as written raises ImproperlyConfigured exactly when there is no model, no queryset and the bound get_queryset is falsy |
| ListViews.InitGuard | apps/libs/views/list.py:20-21 | the guard its message describes: ImproperlyConfigured exactly when the view has no model, no queryset and no get_queryset of its own |
| ListViews.InitGuardCorrected | apps/libs/views/list.py:45-48 | the child list, which overrides get_queryset, always passes the corrected guard, while a list without model or queryset is refused where the written guard accepts it |
| EditViews.GetAddInitial | apps/libs/views/edit.py:93-104 | the loop over the GET parameters returns the initial data overlaid with each parameter's last value, skipping "id" |
| EditViews.OverlayUntouched | apps/libs/views/edit.py:98-102 | a key that is not a GET parameter, or is "id", keeps its initial presence and value |
| EditViews.OverlayCopies | apps/libs/views/edit.py:98-102 | every GET parameter other than "id" ends up in the initial data holding its last value, overriding the base value |
| EditViews.OverlayKeys | apps/libs/views/edit.py:93-104 | the resulting keys are the initial keys plus the GET keys, without "id" |
| EditViews.AddPageFromChildList | apps/libs/views/edit.py:93-104 | following a child list's add button pre-fills the parent key with the parent's id and adds no other key |
| EditViews.ModelFormClass | apps/libs/views/edit.py:109-113 | Django's model form selection: an explicit form class, else a form over the given fields; both or neither is ImproperlyConfigured |
| EditViews.ModelFormView.GetFormClass | apps/libs/views/edit.py:106-150 | explicit fields or form_class are kept; otherwise fields becomes the model's declared field names, so a page without form_class always gets a model form over those fields |
| EditViews.DerivedFormFields | apps/libs/db/models.py:29-37 | the derived fields are exactly the fields not auto-created, in declaration order |
| EditViews.CollectModelNames | apps/libs/views/edit.py:259-264 | the set of the protecting objects' verbose names, each name present exactly when some object has it |
| EditViews.Delete | apps/libs/views/edit.py:258-274 | an unprotected deletion yields "<name>を削除しました。"; a protected one yields the refusal message listing each distinct blocking model name once, and no success message |
| EditViews.ProtectedMessageNames | apps/libs/views/edit.py:271-272 | the names in the refusal message, split back at "、", are the blocking models, each exactly once |
| EditViews.ProtectedMessage | apps/libs/views/edit.py:271-272 | the refusal message starts with "削除できませんでした。『" and the blocking model names joined by "、", and ends by naming the object the records depend on |
| EditViews.InlineFormsetPost | apps/libs/views/edit.py:326-346 | both is_valid() calls always run; the data is saved exactly when both pass, with "<object_name>を追加しました。" |
| EditViews.StatusViewInit | apps/libs/views/edit.py:185-191 | construction succeeds exactly when both status_class and model are set, ImproperlyConfigured otherwise |
| EditViews.UpdateStatus | apps/libs/views/edit.py:193-195 | only the status changes, and the record is saved once |
| EditViews.StatusPost | apps/libs/views/edit.py:197-204 | an unknown status id is a ValueError and an unknown record a 404, both leaving the record untouched; otherwise the status is written and saved, then the page redirects to the success URL with "<label>に変更しました。" |
| EditViews.DeleteListInit | apps/libs/views/edit.py:211-215 | construction succeeds exactly when success_url is set |
| EditViews.EditingNavbars | apps/libs/views/edit.py:22-311 | a plain form page refuses a menu; every other editing page shows the add-family navbar |
| DbModels.GetModelFields | apps/libs/db/models.py:29-37 | the loop returns the names of the fields that are not auto-created, in declaration order |
| DbModels.DeclaredNames | apps/libs/db/models.py:29-37 | never more names than fields |
| DbModels.DeclaredNamesAll | apps/libs/db/models.py:31-35 | a model without auto-created fields lists every field name, in order |
| DbModels.DeclaredNamesSubsequence | apps/libs/db/models.py:29-37 | the returned names are a subsequence of all field names |
| DbModels.DeclaredNamesMembers | apps/libs/db/models.py:31-35 | a name is returned exactly when some field that is not auto-created has it |
| DbModels.ReportedSettings | apps/libs/db/models.py:14 | Django's deconstruct reports a subset of the settings, unchanged, dropping null=False, its default |
| DbModels.KeySet | apps/libs/db/models.py:15-18 | the set of the deleted keys |
| DbModels.DeleteKeys | apps/libs/db/models.py:15-18 | deleting keys in order succeeds exactly when each is present when deleted, else KeyError; the result lacks exactly those keys |
| DbModels.Deconstruct | apps/libs/db/models.py:13-19 | deconstruct succeeds exactly when all four fixed settings are reported, and returns the rest unchanged |
| DbModels.NoteFieldDeconstructsEmpty | apps/libs/db/models.py:8-19 | a NoteField deconstructs to no keyword arguments, matching its argument-less constructor |
| DbModels.NoteFormfieldKwargs | apps/libs/db/models.py:21-26 | the form field gets a Textarea widget unless the caller chose one, and nothing else changes |
| DateViews.Latest | apps/libs/views/dates.py:112-138 | no record exactly when there are no dates; otherwise one of the dates, no earlier than any other |
| DateViews.LatestMonthTarget | apps/libs/views/dates.py:110-121 | the newest record's year and month, never before any record's month; today's year and month when there are no records |
| DateViews.LatestYearTarget | apps/libs/views/dates.py:136-145 | the newest record's year, no earlier than any record's year; today's year when there are no records |
| DateViews.LatestMonthInLatestYear | apps/libs/views/dates.py:110-145 | the two redirects agree: the latest month lies in the latest year |
| DateViews.LatestMonthRedirect | apps/libs/views/dates.py:107-121 | the subclass's month URL of the target month, or NotImplementedError when get_month_url is not overridden |
| DateViews.LatestYearRedirect | apps/libs/views/dates.py:133-145 | the subclass's year URL of the target year, or NotImplementedError when get_year_url is not overridden |
| DateViews.RedirectViewInit | apps/libs/views/dates.py:101-131 | construction fails with ImproperlyConfigured exactly when the view has a menu attribute |
| DateViews.ArchiveViewInit | apps/libs/views/dates.py:19-66 | construction fails with ImproperlyConfigured exactly when the view has neither model nor queryset |
| DateViews.MonthArchiveLinks | apps/libs/views/dates.py:28-47 | this_month_url and previous_month_url are always set, next_month_url exactly when there is a next month, each to the month URL of that month; every other key is kept; NotImplementedError without get_month_url |
| DateViews.YearArchiveLinks | apps/libs/views/dates.py:72-91 | the shown year's link goes under this_month_url, previous_year_url is always set, next_year_url exactly when there is a next year; every other key is kept; NotImplementedError without get_year_url |
| DateViews.YearArchiveUsesMonthKey | apps/libs/views/dates.py:79-80 | a year archive never writes this_year_url: its own link sits under this_month_url |
| DateViews.ArchiveNavbars | apps/libs/views/dates.py:24-70 | the archive pages always get the month and year archive menus, which cannot fail |
| MultipleViews.BoundForm.constructor | apps/libs/views/multiple.py:21-22 | a new form holds its prefix, initial data, bound data and class, and has not been validated |
| MultipleViews.BoundForm.IsValid | apps/libs/views/multiple.py:66 | is_valid() marks the form validated and answers whether the bound data is acceptable |
| MultipleViews.MultipleFormView.constructor | apps/libs/views/multiple.py:9-12 | the view holds its configured initial data, form classes, success URL and request |
| MultipleViews.MultipleFormView.GetInitial | apps/libs/views/multiple.py:15-16 | a copy equal to the class-level initial data; the view itself is not changed |
| MultipleViews.MultipleFormView.GetFormKwargs | apps/libs/views/multiple.py:28-42 | initial and prefix always; data and files exactly for a POST, holding the posted data and files; no other key |
| MultipleViews.MultipleFormView.GetForms | apps/libs/views/multiple.py:24-26 | one new, distinct, unvalidated form per (prefix, class) pair, in the configured order, bound to the posted data exactly for a POST |
| MultipleViews.MultipleFormView.Post | apps/libs/views/multiple.py:44-70 | every form is validated, with no short-circuit; the view redirects to its success_url exactly when all forms are valid, and renders the invalid forms otherwise |
| MultipleViews.FilterSet.constructor | apps/libs/views/multiple.py:88-92 | a filter set holds its model name, validity and count, and has not been validated |
| MultipleViews.FilterSet.IsValid | apps/libs/views/multiple.py:107 | is_valid() marks the filter set validated and answers its validity |
| MultipleViews.ValidPrefix | apps/libs/views/multiple.py:107 | the number of leading filter sets that validate: all before it do and the one at it does not |
| MultipleViews.MultipleFilterGet | apps/libs/views/multiple.py:104-122 | when every filter set validates, one (model name, results) entry per filter set in order and the sum of their counts; otherwise no entries and a count of 0; validation stops at the first invalid filter set |
| Inconsistency.CheckIssuesSnoc | apps/libs/inconsistency.py:64-70 | checking one more pair appends exactly the issue check_instance reports for it, if any |
| Inconsistency.Validator.constructor | apps/libs/inconsistency.py:16-29 | the validator holds both models' names, their records, the fix actions and the instance check |
| Inconsistency.ValidateForwardInconsistency | apps/libs/inconsistency.py:74-85 | an issue exactly when the record's related key is None; it is about that record, gives the reason "<forward>に対応する<reverse>レコードが存在しません" and holds the one fix action for it |
| Inconsistency.ValidateReverseConsistent | apps/libs/inconsistency.py:87-99 | an issue exactly when no forward record points at the record; the reason names the reverse model first, and the issue holds the one fix action for it |
| Inconsistency.Validator.CheckPairs | apps/libs/inconsistency.py:64-70 | every pair of the set is checked exactly once, and the issues check_instance reports are collected in the order the pairs were checked |
| Inconsistency.Validator.Validate | apps/libs/inconsistency.py:43-72 | the forward issues, then the reverse issues, then what check_instance reports for each consistent pair; the pairs checked are distinct and are exactly those of both phases, so each is checked once |
| Inconsistency.ForwardIssuesAreDangling | apps/libs/inconsistency.py:48-85 | the forward phase reports exactly the records whose related key is None, in order, each with the reason "<forward>に対応する<reverse>レコードが存在しません" and one fix action |
| Inconsistency.ReverseIssuesAreOrphans | apps/libs/inconsistency.py:57-99 | the reverse phase reports exactly the records nothing points back at, in order, each with the reason "<reverse>に対応する<forward>レコードが存在しません" and one fix action |
| Inconsistency.ForwardPairsMembers | apps/libs/inconsistency.py:53-54 | a pair comes from the forward phase exactly when some forward record has that id and points at that related id |
| Inconsistency.ReversePairsMembers | apps/libs/inconsistency.py:61-62 | a pair comes from the reverse phase exactly when some reverse record has that id and is pointed at by that forward id |
| Inconsistency.CheckedOnce | apps/libs/inconsistency.py:45-70 | a relation consistent from both ends is checked exactly once, although both phases add it |
| Groups.ParseGrouping | apps/libs/templatetags/groups.py:15-32 | the tag parses exactly when it has six bits with "by" third and "as" fifth, into the target, the key expression and the variable name; otherwise a TemplateSyntaxError |
| Groups.ModelClassOf | apps/libs/templatetags/groups.py:51-56 | no class exactly for an empty list, else the first row's class |
| Groups.Insert | apps/libs/templatetags/groups.py:90-93 | one step of the sort: the list plus the inserted row, as a multiset |
| Groups.InsertSorted | apps/libs/templatetags/groups.py:90-93 | inserting into a list sorted by key keeps it sorted |
| Groups.SortByKey | apps/libs/templatetags/groups.py:90-93 | ordering by the grouping key gives a permutation of the list, sorted by key |
| Groups.InsertWithKey | apps/libs/templatetags/groups.py:90-93 | an inserted row goes in front of the rows with its key and leaves the others' order alone |
| Groups.SortByKeyStable | apps/libs/templatetags/groups.py:91-93 | the sort is stable: the rows of each key keep the order the queryset already had |
| Groups.GroupAdjacent | apps/libs/templatetags/groups.py:98 | itertools.groupby gives no group exactly for an empty list, and only non-empty groups, the first starting at the first row |
| Groups.GroupAdjacentPartition | apps/libs/templatetags/groups.py:98 | the groups concatenate back to the list, each holds one key, and neighbouring groups have different keys |
| Groups.GroupsOfSortedHaveDistinctKeys | apps/libs/templatetags/groups.py:90-98 | after sorting, group keys strictly increase, so no key is split over two groups |
| Groups.GroupKeysFromList | apps/libs/templatetags/groups.py:98 | the first row of every group is a row of the list |
| Groups.FirstChoice | apps/libs/templatetags/groups.py:72-77 | the label of the first choice with the key, and none exactly when no choice has it |
| Groups.FirstMatchIsFirst | apps/libs/templatetags/groups.py:72-76 | the first element of the filtered choices is the first choice with the key |
| Groups.ChoiceLabel | apps/libs/templatetags/groups.py:58-77 | a non-model attribute is labelled by the first row's value; reading `.field` of a class attribute without one (the `pk` property, a reverse one-to-one accessor) is an AttributeError, and only that fails; a field without choices by the key; with choices, by the first matching choice's label, and by the key exactly when no choice matches |
| Groups.Results | apps/libs/templatetags/groups.py:79-99 | one result per group, holding the group's rows and its label; AttributeError exactly when there is a group and the attribute has no `.field` |
| Groups.RenderGroups | apps/libs/templatetags/groups.py:83-102 | for an attribute whose label can be read, the rendered groups list every row once, ordered by key with ties in their original order; each group is one key, no key is split over two groups, and a non-model attribute's groups are labelled by their key |
| Groups.Render | apps/libs/templatetags/groups.py:83-102 | AttributeError exactly for a non-empty list grouped by a class attribute without `.field`; otherwise no groups exactly for an empty list, and every group holds one key and is labelled by the choice label of that key |
| Urls.RemoveNextUrl | apps/libs/url.py:6-21 | an empty or missing URL comes back as it is; any other yields a URL |
| Urls.RemoveQueryString | apps/libs/url.py:24-32 | an empty or missing URL comes back as it is; any other yields a URL |
| Urls.RemoveNextUrlDropsNext | apps/libs/url.py:10-21 | the result keeps the path and fragment, its parameters are the original ones without next, and it carries no next |
| Urls.RemoveNextUrlIdempotent | apps/libs/url.py:6-21 | removing next twice is the same as removing it once |
| Urls.RemoveNextUrlWithoutQuery | apps/libs/url.py:6-21 | a URL with neither query nor fragment passes through unchanged |
| Urls.RemoveQueryStringDropsQuery | apps/libs/url.py:28-32 | the result parses to the same path and fragment with an empty query |
| Urls.RemoveNextUrlOfQuery | apps/libs/url.py:10-21 | for a URL with a query and no fragment, the result is the path followed by the re-encoded query without next, if any remains |
| Urls.RemoveNextUrlAlone | apps/libs/url.py:6-21 | a next that is the only parameter is dropped together with the "?" |
| Urls.RemoveNextUrlFirst | apps/libs/url.py:6-21 | a next before another parameter is dropped and the other kept |
| Urls.RemoveNextUrlLast | apps/libs/url.py:6-21 | a next after another parameter is dropped and the other kept |
| Urls.RemoveNextUrlLeavesOne | apps/libs/url.py:13-21 | when one other parameter remains, the result is the path with just that parameter |
| UrlTags.ConcatNextUrlAddsNext | apps/libs/templatetags/url.py:8-14 | concat_next_url keeps the path, and its parameters are the URL's own plus one next holding the quoted value |
| UrlTags.ConcatToQuery | apps/libs/templatetags/url.py:11-12 | appending "&next=…" to a URL that has a query adds one next parameter after the existing ones |
| UrlTags.ConcatToBare | apps/libs/templatetags/url.py:13-14 | appending "?next=…" to a URL without a query gives exactly one parameter, next |
| UrlTags.ConcatNextUrl | apps/libs/templatetags/url.py:8-14 | the URL, then "&" when it already has a "?" and "?" otherwise, then "next=" and the quoted value |
| UrlTags.InheritNextUrl | apps/libs/templatetags/url.py:17-32 | the link is left as it is exactly when the current URL has no non-empty next; otherwise it gets "?next=" and a value |
| UrlTags.InheritWithoutNext | apps/libs/templatetags/url.py:22-23 | a current URL without next leaves the link as it is |
| UrlTags.InheritPlainNext | apps/libs/templatetags/url.py:17-32 | when the current URL's next carries no next of its own, the link gets "?next=" and that value |
| UrlTags.InheritAfterConcat | apps/libs/templatetags/url.py:8-32 | a page reached through a concat_next_url link, for a target that quote leaves unchanged, passes the same next on to its own links |
| UrlTags.InheritUnwrapsNestedNext | apps/libs/templatetags/url.py:25-30 | a next that itself carries a next is unwrapped once, so links go straight on to the inner target |
| UrlTags.NextOfNext | apps/libs/templatetags/url.py:26-28 | the next of "<path>?next=<target>" is the target |
| QueryStrings.Get | apps/libs/templatetags/url.py:22-25 | query.get(k) finds values exactly when k is a parameter, and they are that parameter's values |
| QueryStrings.Pop | apps/libs/url.py:14 | query.pop("next", None) leaves no such key and never lengthens the query |
| QueryStrings.PopMembers | apps/libs/url.py:14 | popping a key keeps exactly the other parameters |
| QueryStrings.ParseQs | apps/libs/url.py:13 | on a query without "#", as urlparse hands it on, parse_qs yields distinct keys, each with at least one value, none with a separator in it |
| QueryStrings.PopWellFormed | apps/libs/url.py:14 | popping a key keeps the query well formed |
| QueryStrings.ParseQsUrlEncode | apps/libs/url.py:13-17 | parse_qs(urlencode(d, doseq=True)) gives back every well-formed query |
| QueryStrings.UrlEncode | apps/libs/url.py:17 | an empty query encodes to "", and a query whose keys and values are non-empty and hold no "&" or "#" encodes with no "#" |
| QueryStrings.UrlEncodeShape | apps/libs/url.py:17 | urlencode gives "" only for an empty query |
| QueryStrings.UrlParse | apps/libs/url.py:10-28 | urlparse's path part holds neither "?" nor "#", and its query holds no "#" |
| QueryStrings.UrlParseGetUrl | apps/libs/url.py:20-32 | geturl() of replaced parts parses back to those parts |
| QueryStrings.GetUrl | apps/libs/url.py:20-21 | geturl() starts with the part before the query, is only that when query and fragment are empty, and ends with "#" and a non-empty fragment |
| StrUtils.ScanAsWritten | apps/libs/str.py:24-39 | the scan as written stops, if at all, at an index inside the string at or after where it started; running off the end is an IndexError |
| StrUtils.GetFirstCharAsWritten | apps/libs/str.py:21-41 | the while loop as written computes the as-written first character |
| StrUtils.SplitFirstAsWritten | apps/libs/str.py:44-47 | split_first as written fails exactly as _get_first_char does, and otherwise splits off its first character |
| StrUtils.SingleCharAsWritten | apps/libs/str.py:22-26 | a one-character string makes the code as written raise IndexError, where the corrected scan returns the character |
| StrUtils.Scan | apps/libs/str.py:24-39 | the corrected scan never goes past the end of the string |
| StrUtils.FirstChar | apps/libs/str.py:21-39 | a first character exists exactly for a non-empty string |
| StrUtils.ScanExtends | apps/libs/str.py:25-39 | what the scan takes after the first character is a run of joiner pairs and variation selectors, and it stops before any further one |
| StrUtils.FirstCharSplits | apps/libs/str.py:21-39 | for a non-empty string the first character and the rest split it as the grammar describes |
| StrUtils.ExtensionUnique | apps/libs/str.py:25-39 | two maximal extensions of the same text are equal |
| StrUtils.SplitUnique | apps/libs/str.py:44-47 | a string splits at its first character in only one way |
| StrUtils.GetFirstChar | apps/libs/str.py:21-39 | the corrected while loop computes the first character, stopping at the end of the string |
| StrUtils.SplitFirst | apps/libs/str.py:44-47 | split_first fails with IndexError exactly on the empty string, and otherwise returns the unique split at the first character |
| StrUtils.ScanAgrees | apps/libs/str.py:24-39 | the scan as written and the corrected one agree wherever the one as written stops inside the string; it fails exactly where the corrected one reaches the end |
| StrUtils.FirstCharAsWrittenFails | apps/libs/str.py:21-41 | the code as written fails exactly on the empty string and on strings that are one character with its extensions, and agrees with the corrected one elsewhere |
| StrUtils.SplitFirstExamples | apps/libs/tests/test_str.py:32-42 | the three test strings split off 🈳, 🏃‍♂️ and あ |
| StrUtils.StripLeft | apps/libs/str.py:6 | int() strips leading whitespace: no longer, and starting with no whitespace |
| StrUtils.StripRight | apps/libs/str.py:6 | int() strips trailing whitespace: no longer, and ending with no whitespace |
| StrUtils.IsIntHasDigit | apps/libs/str.py:4-9 | a string is_int accepts holds a digit |
| StrUtils.IsInt | apps/libs/str.py:4-9 | is_int holds exactly for optional whitespace, an optional sign, a run of digits with single underscores between them, and optional whitespace |
| StrUtils.IntValueOfDecimal | apps/libs/str.py:6 | int() reads a decimal numeral back as its number |
| StrUtils.IntValueOfNegative | apps/libs/str.py:6 | int() reads a minus sign and a numeral as the negated number |
| StrUtils.IntValuePadded | apps/libs/str.py:6 | int(" +1_2\n") is 12 |
| StrUtils.StripLeftSuffix | apps/libs/str.py:6 | stripping on the left leaves a suffix of the string |
| StrUtils.StripRightPrefix | apps/libs/str.py:6 | stripping on the right leaves a prefix of the string |
| StrUtils.StrippedWithin | apps/libs/str.py:6 | the stripped text is a slice of the original string |
| StrUtils.AllDigitsRun | apps/libs/str.py:6 | a non-empty run of ASCII digits is a valid integer body |
| StrUtils.DecimalIsInt | apps/libs/str.py:4-9 | every decimal numeral, with or without a minus sign, is an int |
| StrUtils.IsIntExamples | apps/libs/tests/test_str.py:7-16 | is_int accepts "1" and "-1" and refuses "a" |
| Collections.AsList | apps/libs/collections.py:5-11 | a list comes back as it is, a tuple as a list of the same items, anything else as a one-element list |
| Collections.AsListStable | apps/libs/collections.py:5-11 | a tuple and a list of the same items give the same list, as_list of a list it made changes nothing, and a non-sequence gives one item |
| Collections.DuplicatedObjects | apps/libs/collections.py:1-2 | each object occurring more than once, listed once; nothing else |
| Collections.TwiceEach | apps/libs/collections.py:1-2 | distinct objects each occurring at least twice need at least twice as many occurrences |
| Collections.DuplicatesAtMostHalf | apps/libs/collections.py:1-2 | there are at most half as many duplicated objects as objects |
| Http.IsEmptyQuery | apps/libs/http.py:4-13 | true exactly when every value of every key is empty, so an empty query is empty |
| Http.KeysIrrelevant | apps/libs/http.py:6-11 | the answer does not depend on the keys, only on the values |
| Http.OneValueSuffices | apps/libs/http.py:9-11 | one non-empty value anywhere makes the query non-empty |
| Admin.Rows | apps/libs/admin.py:26-27 | ceil(n / 20): the fewest rows of 20 characters that hold n |
| Admin.FormField.constructor | apps/libs/admin.py:16 | a form field holds the widget it was built with |
| Admin.FormfieldForDbfield | apps/libs/admin.py:15-30 | no field stays none; otherwise the field's widget becomes the resized one and the same field is returned, or a maxlength int() refuses raises ValueError and the widget is left alone |
| Admin.Unchanged | apps/libs/admin.py:18-20 | a URL field, or a widget without maxlength, is left as it is |
| Admin.MaxLength | apps/libs/admin.py:21 | int() of the maxlength attribute: a number as it is, text exactly when int() accepts it and then its value, and ValueError otherwise |
| Admin.Resized | apps/libs/admin.py:17-28 | ValueError exactly when a non-URL field has a non-empty maxlength that int() refuses; a URL field or a missing or empty maxlength leaves the widget; otherwise it is sized for the int() value |
| Admin.TextMaxLengthAsNumber | apps/libs/admin.py:19-28 | a maxlength written as the text of n sizes the widget for n, as the number n does |
| Admin.PaddedMaxLength | apps/libs/admin.py:21 | a maxlength of " +1_2\n" is read by int() as 12 and sizes the widget for 12 |
| Admin.RefusedMaxLength | apps/libs/admin.py:21 | non-empty maxlength text that int() refuses raises ValueError |
| Admin.ShortField | apps/libs/admin.py:21-24 | for a maxlength that int() reads as a number below 200 the input stays, sized max(maxlength, 20) with style "width: auto", and every other attribute is kept |
| Admin.LongField | apps/libs/admin.py:21-28 | for a maxlength that int() reads as 200 or more the field becomes an 80-column text area with ceil(maxlength / 20) rows and no other attribute; 200 characters give 10 rows |
| Admin.ResizedIdempotent | apps/libs/admin.py:15-30 | a resized widget is not resized differently a second time |
| FormFields.PositiveIntegerField | apps/libs/forms/fields.py:7-14 | ImproperlyConfigured exactly when min_value is negative; otherwise the lower bound passed on is set and non-negative |
| FormFields.PriceField | apps/libs/forms/fields.py:17-23 | a price field always passes a label on |
| FormFields.PositiveIntegerBounds | apps/libs/forms/fields.py:9-14 | without min_value the field starts at 0; a non-negative min_value is kept; every other argument passes through |
| FormFields.PriceFieldLabel | apps/libs/forms/fields.py:20-23 | "価格(税込)" is only the default label, a given one wins, nothing else is added, and the bounds are checked as for a positive integer field |
| TotalTag.TotalOf | apps/libs/templatetags/total.py:8-19 | the total fails with AttributeError exactly when some object lacks the key |
| TotalTag.Total | apps/libs/templatetags/total.py:8-19 | the loop computes the specified total: each object's value, or the bound method's result, added in order from 0 |
| TotalTag.TotalStopsAtError | apps/libs/templatetags/total.py:12-13 | once a prefix fails, the whole list fails with the same error |
| TotalTag.TotalAppend | apps/libs/templatetags/total.py:10-17 | the total of two lists that both succeed is the sum of their totals |
| TotalTag.TotalOfOne | apps/libs/templatetags/total.py:10-17 | the empty list totals 0, and one object totals its value or its method's result |
| TotalTag.Contribution | apps/libs/templatetags/total.py:13-15 | an attribute adds its value, and a bound method adds the result of calling it |
| ViewTags.DoStartswith | apps/libs/templatetags/view.py:17-22 | true exactly when the value is a string that begins with the prefix; any other value gives false |
| ViewTags.StartswithPrefixes | apps/libs/templatetags/view.py:19-20 | every string starts with the empty string and with each of its prefixes, and never with itself followed by more |
| ViewTags.StartswithExamples | apps/libs/templatetags/view.py:17-22 | "abc" starts with "a" but not "b", and the number 1 starts with nothing |
| ModelTags.EntryFor | apps/libs/templatetags/model.py:17-24 | every entry is named by the field's verbose name; its value is the related object for a foreign key, else get_FOO_display(), else the raw value |
| ModelTags.ListFields | apps/libs/templatetags/model.py:7-28 | one entry per field not ending in "_ptr", in field order, each titled with the field's verbose name and holding the related record for a foreign key, else the display label when the record has one, else the raw value |
| ModelTags.ShownFields | apps/libs/templatetags/model.py:12-15 | the fields shown are a subsequence of the fields, and a field is shown exactly when it is not a parent link |
| ModelTags.NoParentLinkShowsAll | apps/libs/templatetags/model.py:12-15 | without parent links every field is shown |
| FormTags.SearchFileField | apps/libs/templatetags/form.py:17-23 | true only when some form field is a file field of the model, false only when none is, and an AttributeError only when some model attribute of the name has no field |
| FormTags.HasMultipart | apps/libs/templatetags/form.py:9-23 | a form that is not a ModelForm gives false; a ModelForm searches its fields |
| FormTags.MultipartIff | apps/libs/templatetags/form.py:17-23 | when every model attribute named by the form has a field, the answer is true exactly when one of them is a file field |
| FormTags.NonAttributesIgnored | apps/libs/templatetags/form.py:18 | a form field the model has no attribute for changes nothing |
| Scaffold.TypeCode | apps/libs/management/commands/scaffold.py:33-47 | a declaration exists exactly for the types str, date, datetime, text and bool |
| Scaffold.FieldCode | apps/libs/management/commands/scaffold.py:22-49 | created_at, updated_at and url give their fixed declarations; a failure is a failed unpacking or a CommandError |
| Scaffold.NamedField | apps/libs/management/commands/scaffold.py:32-49 | "name:type" gives "name = <declaration of type>" for a known type and CommandError for an unknown one |
| Scaffold.NotSpecial | apps/libs/management/commands/scaffold.py:22-30 | a specification with a colon is none of the fixed names |
| Scaffold.UnpackFailures | apps/libs/management/commands/scaffold.py:32 | a specification without a colon, other than the fixed names, or with two colons fails to unpack |
| Scaffold.FieldCodes | apps/libs/management/commands/scaffold.py:19-49 | the loop succeeds exactly when every specification has a declaration, returning them in order; a failure is that of some specification |
| Scaffold.ConstPackageComponents | apps/libs/management/commands/scaffold.py:51 | the constant package is the package's first two components |
| Scaffold.AppNameOfComponents | apps/libs/management/commands/scaffold.py:52-53 | the application name is the package's last component, with hyphens for underscores |
| Scaffold.ConstPackage | apps/libs/management/commands/scaffold.py:51 | the constant package is a prefix of the package |
| Scaffold.SnakeName | apps/libs/management/commands/scaffold.py:52 | the snake name, the last component, has no dot |
| Scaffold.AppName | apps/libs/management/commands/scaffold.py:53 | the application name has neither dots nor underscores |
| Scaffold.UrlPrefix | apps/libs/management/commands/scaffold.py:54 | the URL prefix has neither dots nor underscores and is five characters shorter than a package starting with "apps." |
| Scaffold.Directory | apps/libs/management/commands/scaffold.py:55 | the directory is as long as the package and has no dot |
| Scaffold.TestDirectory | apps/libs/management/commands/scaffold.py:56 | the tests directory is the directory followed by "/tests" |
| Scaffold.Handle | apps/libs/management/commands/scaffold.py:15-70 | the command succeeds exactly when every field specification has a declaration, and then hands on the package, the model, the declarations in order and the derived names |

## Left out

- Django itself: the ORM (querysets, `order_by`, `delete`, `aggregate`, `select_related`, `get_object_or_404`), URL routing (`reverse`, `resolve`, `path`, `create_crudl`, `CRUDLMixin`), template rendering, the `messages` framework and `transaction.atomic`. Their results are inputs of the model.
- Persistence: `MoveMixin.form_valid`, `TotalMixin.get_total`, the inline formset's `save` and the bulk-add views' `forms_valid`. They only call the ORM inside a transaction.
- `views/base.py`, `views/misc.py`, `DisplayAsTableMixin`, the `summaries()` helpers, and `table_columns`/`get_settings` of `templatetags/view.py`. These are rendering glue with no decision logic.
- `ReadOnlyField` and `WithFuriganaChoiceField` in `forms/fields.py`. They are widget wiring.
- The scaffold command's `render_to_string` and its `exec` file writes, and the `has_list` … `has_delete` template flags. These are I/O; the model stops at the plan of names and field codes.
- Form-page titles and submit-button contexts built only for templates.
- The Auth0 login mixin, `uikit.py`, `jahumanize.py`, `global_menu.py`, `path.py`, `factory.py` and `datetime.py`. They are authentication, widgets, randomness and clocks. Where a view needs "today" it is a parameter.
- `fqcn`. It is class reflection (`__module__` and `__qualname__`), which has no counterpart in the model.
- `StrUtils.IsInt`: models Python's `int()` on a `str` for ASCII only. That is surrounding whitespace, an optional sign, and digits with single underscores between them. Unicode digits and Unicode whitespace are not modelled, nor are arguments of other types (`int(3.5)`, bytes).
- `Admin.FormfieldForDbfield`: the row count `ceil(maxlength / 20)` is computed exactly on integers. Python's float division `maxlength / 20` can round before `ceil` only for very large lengths, and that is not modelled.
- `QueryStrings.ParseQs`, `QueryStrings.UrlEncode` and `QueryStrings.UrlParse`: percent-encoding and `+` as a space are not modelled. A query is a list of decoded key/value pairs, and `quote` is a parameter where `concat_next_url` calls it.
- `Collections.AsList`: a list argument is returned as the same object in Python. The model returns an equal value and says nothing about aliasing.
- `Collections.DuplicatedObjects`, `Inconsistency.Validator.Validate` and `EditViews.CollectModelNames`: Python iterates a `set` in an unspecified order. The model states which elements are produced, not in which order.
- `Groups.SortByKey`: the tag re-orders the queryset in the database with `order_by(group_by_name, *query.order_by)`. The model replaces that with a stable insertion sort on an integer key whose equality is the grouping equality. Two things are therefore not captured. Rows with equal keys come back in the incoming order, whereas the database returns them in an unspecified order when the queryset had no ordering. And a foreign key orders by the related model's `Meta.ordering` while `groupby` compares instances, so in Django one key can end up split over two groups; in the model it cannot.
- `ModelTags.ListFields`: a non-null foreign key whose related row is missing raises `RelatedObjectDoesNotExist` in Django. The model reads it as a value of the instance.
- `UrlTags.InheritAfterConcat`: stated only for targets that `quote` leaves unchanged. `parse_qs` percent-decodes, so for other targets Python passes on the decoded value, and that decoding is not modelled.
- `ViewsMixin.SuccessUrl`: a set `success_url` is returned as it is. Django's `get_success_url`, which the mixin defers to, also substitutes the object's attributes into it with `success_url.format(**self.object.__dict__)`; that substitution is not modelled.
- `QueryStrings.GetUrl`: the part before the query is kept verbatim. `urlunparse` also lowercases the scheme and drops an empty `;params`, which is not modelled.
- `TotalTag.Total`: only integer values and integer-returning methods are modelled, not floats or `Decimal`.

## Findings

| source | as written | input that shows it | evidently intended | confidence | as-written member | corrected member |
|---|---|---|---|---|---|---|
| apps/libs/str.py:21-47 | `_get_first_char` reads `s[index]` after its extension loop without checking that `index` is still inside the string | `split_first("あ")`, or any string that is one character plus only its combining extensions, raises `IndexError` | stop at the end of the string, so `split_first("あ") == ("あ", "")` | not executed | StrUtils.FirstCharAsWrittenFails | StrUtils.SplitUnique |
| apps/libs/views/list.py:18-48 | the `__init__` guard tests `not self.get_queryset`, a bound method, which is always truthy | a `GenericListView` subclass with neither `model` nor `queryset` is accepted by the constructor | raise `ImproperlyConfigured` when neither `model` nor `queryset` is set and `get_queryset` is not overridden | not executed | ListViews.InitGuardNeverFires | ListViews.InitGuardCorrected |

/** The routing state of src/store/redux/slices/appSlice.ts: the current route and the breadcrumb trail. */
module AppSlice {
  import opened Wrappers

  datatype BreadcrumbItem = BreadcrumbItem(title: string, path: Option<string>)

  /** `AppState`; each reducer changes only the field it names. */
  class AppState {
    var currentRoute: string
    var breadcrumbs: seq<BreadcrumbItem>

    /** `initialState`. */
    constructor ()
      ensures currentRoute == "/" && breadcrumbs == []
    {
      currentRoute := "/";
      breadcrumbs := [];
    }

    method SetCurrentRoute(payload: string)
      modifies this`currentRoute
      ensures currentRoute == payload
    {
      currentRoute := payload;
    }

    method SetBreadcrumbs(payload: seq<BreadcrumbItem>)
      modifies this`breadcrumbs
      ensures breadcrumbs == payload
    {
      breadcrumbs := payload;
    }

    /** `push`: one more item at the end; the existing trail is its prefix. */
    method AddBreadcrumb(item: BreadcrumbItem)
      modifies this`breadcrumbs
      ensures breadcrumbs == old(breadcrumbs) + [item]
      ensures |breadcrumbs| == |old(breadcrumbs)| + 1 && old(breadcrumbs) <= breadcrumbs
    {
      breadcrumbs := breadcrumbs + [item];
    }

    method ClearBreadcrumbs()
      modifies this`breadcrumbs
      ensures breadcrumbs == []
    {
      breadcrumbs := [];
    }
  }
}

/** The document title (client/App.tsx, `updateTitle`): a fixed title for each listed
    path, "Chat | Praxis" below `/chat/`, and the site title everywhere else. */
module AppTitle {
  import opened Text

  const DefaultTitle: string := "Praxis – Connect, Learn & Grow Through Skill Exchange"
  const ChatTitle: string := "Chat | Praxis"

  /** The paths with a title of their own. */
  const Titles: map<string, string> := map[
    "/" := DefaultTitle,
    "/auth" := "Sign In | Praxis",
    "/dashboard" := "Discover Skills | Praxis",
    "/profile" := "My Profile | Praxis",
    "/chat" := "Messages | Praxis",
    "/connections" := "My Connections | Praxis",
    "/settings" := "Settings | Praxis"
  ]

  /** The title the switch decides for `path`. */
  function TitleFor(path: string): string {
    if path in Titles then Titles[path]
    else if StartsWith(path, "/chat/") then ChatTitle
    else DefaultTitle
  }

  /** The body of `updateTitle`: the default, overwritten by the matching case. */
  method ComputeTitle(path: string) returns (title: string)
    ensures title == TitleFor(path)
  {
    title := DefaultTitle;
    if path == "/" {
      title := DefaultTitle;
    } else if path == "/auth" {
      title := "Sign In | Praxis";
    } else if path == "/dashboard" {
      title := "Discover Skills | Praxis";
    } else if path == "/profile" {
      title := "My Profile | Praxis";
    } else if path == "/chat" {
      title := "Messages | Praxis";
    } else if path == "/connections" {
      title := "My Connections | Praxis";
    } else if path == "/settings" {
      title := "Settings | Praxis";
    } else if StartsWith(path, "/chat/") {
      title := ChatTitle;
    }
  }

  /** The page, reduced to its title. */
  class Document {
    var title: string

    constructor ()
      ensures title == []
    {
      title := [];
    }

    /** `updateTitle`, run on load and on every `popstate`. */
    method UpdateTitle(path: string)
      modifies this
      ensures title == TitleFor(path)
    {
      title := ComputeTitle(path);
    }
  }

  /** Each listed path has its own title. */
  lemma ListedTitles()
    ensures TitleFor("/auth") == "Sign In | Praxis"
    ensures TitleFor("/dashboard") == "Discover Skills | Praxis"
    ensures TitleFor("/profile") == "My Profile | Praxis"
    ensures TitleFor("/chat") == "Messages | Praxis"
    ensures TitleFor("/connections") == "My Connections | Praxis"
    ensures TitleFor("/settings") == "Settings | Praxis"
  {
  }

  /** No listed path lies below `/chat/`. */
  lemma ChatSubpathUnlisted(path: string)
    requires StartsWith(path, "/chat/")
    ensures path !in Titles
  {
    assert path[..6] == "/chat/";
    assert path[1] == 'c' && path[2] == 'h' && path[5] == '/';
  }

  /** Every path below `/chat/` is titled "Chat | Praxis"; `/chat` itself is not. */
  lemma ChatSubpath(x: string)
    ensures TitleFor("/chat/" + x) == ChatTitle
    ensures TitleFor("/chat") != ChatTitle
  {
    var path := "/chat/" + x;
    assert path[..6] == "/chat/";
    ChatSubpathUnlisted(path);
  }

  /** A path neither listed nor below `/chat/` gets the site title, as `/` does. */
  lemma UnlistedGetsDefault(path: string)
    requires path !in Titles && !StartsWith(path, "/chat/")
    ensures TitleFor(path) == TitleFor("/") == DefaultTitle
  {
  }

  /** `/onboarding` has no title of its own. */
  lemma OnboardingGetsDefault()
    ensures TitleFor("/onboarding") == DefaultTitle
  {
    var p := "/onboarding";
    assert p[1] == 'o';
    assert p !in Titles;
    assert !StartsWith(p, "/chat/");
  }
}

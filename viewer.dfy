/** The viewer window itself: the fields its button handlers update in place
    (the open document's page count, `current_page`, `is_fullscreen`) and what
    it puts on screen, with each handler proved against the pure navigation,
    page selection and animation functions. */
module Viewer {
  import opened Pages
  import opened Navigation
  import opened Animator

  /** How the file dialog and the document opener end: no file chosen, the file
      could not be opened, or a document with `pageCount` pages. */
  datatype OpenOutcome = Cancelled | OpenFailed | Opened(pageCount: nat)

  /** What the user sees of the flat viewer: the pages composed into the image
      label, and every error box shown so far, oldest first. */
  datatype Screen = Screen(shown: seq<int>, errors: seq<Error>)

  /** `show_pages(p)` on a screen: the selected spread replaces the picture, or
      an error box is added and the picture stays. */
  function ShowOn(s: Screen, loaded: bool, pageCount: nat, p: int): Screen {
    match ShowSelection(loaded, pageCount, p)
    case Ok(pages) => s.(shown := pages)
    case Err(e) => s.(errors := s.errors + [e])
  }

  /** How "View in 3D" ends: refused because no texture was loaded, or the
      render loop ran and stopped as `step` says. */
  datatype View3D = NoTexturesShown | Rendered(step: Step)

  class Flipbook {
    var loaded: bool
    var pageCount: nat
    var currentPage: int
    var isFullscreen: bool
    var screen: Screen

    /** The navigation state held in this window's fields. */
    function Nav(): Position
      reads this
    {
      Position(loaded, pageCount, currentPage)
    }

    constructor ()
      ensures !loaded && pageCount == 0 && currentPage == 0 && !isFullscreen
      ensures screen == Screen([], [])
      ensures Aligned(Nav())
    {
      loaded := false;
      pageCount := 0;
      currentPage := 0;
      isFullscreen := false;
      screen := Screen([], []);
    }

    method ShowPages(p: int)
      modifies this`screen
      ensures screen == ShowOn(old(screen), loaded, pageCount, p)
    {
      var selection := ShowSelection(loaded, pageCount, p);
      match selection
      case Ok(pages) =>
        screen := screen.(shown := pages);
      case Err(e) =>
        screen := screen.(errors := screen.errors + [e]);
    }

    /** "Load PDF": on success the new document replaces the old one and the
        first spread is shown; a failure leaves the old document in place. */
    method LoadPdf(choice: OpenOutcome)
      modifies this
      ensures isFullscreen == old(isFullscreen)
      ensures choice.Cancelled? ==> Nav() == old(Nav()) && screen == old(screen)
      ensures choice.OpenFailed? ==>
        Nav() == old(Nav()) && screen == old(screen).(errors := old(screen).errors + [LoadPdfFailed])
      ensures choice.Opened? ==>
        Nav() == Position(true, choice.pageCount, 0) && screen == ShowOn(old(screen), true, choice.pageCount, 0)
      ensures choice.Opened? ==> Aligned(Nav())
    {
      match choice
      case Cancelled =>
      case OpenFailed =>
        screen := screen.(errors := screen.errors + [LoadPdfFailed]);
      case Opened(count) =>
        loaded := true;
        pageCount := count;
        currentPage := 0;
        ShowPages(currentPage);
    }

    /** "Previous": back one spread, shown, when there is one. */
    method PreviousPage()
      modifies this`currentPage, this`screen
      ensures Nav() == Navigation.PreviousPage(old(Nav()))
      ensures screen == if Nav() != old(Nav()) then ShowOn(old(screen), loaded, pageCount, currentPage) else old(screen)
    {
      if loaded && currentPage > 0 {
        currentPage := currentPage - 2;
        ShowPages(currentPage);
      }
    }

    /** "Next": forward one spread, shown, when there is one. */
    method NextPage()
      modifies this`currentPage, this`screen
      ensures Nav() == Navigation.NextPage(old(Nav()))
      ensures screen == if Nav() != old(Nav()) then ShowOn(old(screen), loaded, pageCount, currentPage) else old(screen)
    {
      if loaded && currentPage + 1 < pageCount {
        currentPage := currentPage + 2;
        ShowPages(currentPage);
      }
    }

    /** "Swap Pages": re-pair on the adjacent page and show, whether or not the
        page moved, as long as a document is open. */
    method SwapPages()
      modifies this`currentPage, this`screen
      ensures Nav() == Navigation.SwapPages(old(Nav()))
      ensures screen == if loaded then ShowOn(old(screen), loaded, pageCount, currentPage) else old(screen)
    {
      if loaded {
        if currentPage % 2 == 0 && currentPage + 1 < pageCount {
          currentPage := currentPage + 1;
        } else if currentPage % 2 != 0 && currentPage - 1 >= 0 {
          currentPage := currentPage - 1;
        }
        ShowPages(currentPage);
      }
    }

    method ToggleFullscreen()
      modifies this`isFullscreen
      ensures isFullscreen == !old(isFullscreen)
    {
      isFullscreen := !isFullscreen;
    }

    /** A key press: Escape leaves full-screen mode; nothing enters it. */
    method KeyPress(isEscape: bool)
      modifies this`isFullscreen
      ensures isFullscreen == (old(isFullscreen) && !isEscape)
    {
      if isEscape && isFullscreen {
        ToggleFullscreen();
      }
    }

    /** A click on the page image, `width` being the width of the picture
        shown: ignored unless full-screen, otherwise Previous on the left half
        and Next on the rest. Before any page has been shown the label holds no
        picture, so reading its width raises an AttributeError: the handler
        stops with `crashed` and nothing changes. */
    method HandleMouseClick(x: int, width: int) returns (crashed: bool)
      modifies this`currentPage, this`screen
      ensures crashed <==> isFullscreen && old(screen).shown == []
      ensures !isFullscreen || crashed ==> Nav() == old(Nav()) && screen == old(screen)
      ensures isFullscreen && !crashed ==>
        Nav() == (if FlatClickSide(x, width) == Left then Navigation.PreviousPage(old(Nav()))
                  else Navigation.NextPage(old(Nav())))
      ensures isFullscreen && !crashed ==>
        screen == if Nav() != old(Nav()) then ShowOn(old(screen), loaded, pageCount, currentPage) else old(screen)
    {
      if !isFullscreen {
        return false;
      }
      if screen.shown == [] {
        return true;
      }
      if 2 * x < width {
        PreviousPage();
      } else {
        NextPage();
      }
      crashed := false;
    }

    /** `load_textures`: the current spread's pages below the page count; with
        no document the page count cannot be read, an error box is shown and
        nothing is loaded. */
    method LoadTextures() returns (pages: seq<int>)
      modifies this`screen
      ensures pages == if loaded then TexturePages(pageCount, currentPage) else []
      ensures screen == if loaded then old(screen) else old(screen).(errors := old(screen).errors + [TextureLoadFailed])
    {
      if !loaded {
        screen := screen.(errors := screen.errors + [TextureLoadFailed]);
        return [];
      }
      pages := SelectTexturePages(pageCount, currentPage);
    }

    /** The page transitions at the end of each tick of `render_3d`. */
    method CompleteFlips(a: Anim, textures: seq<int>) returns (reloaded: seq<int>)
      requires loaded
      modifies this`currentPage, this`screen
      ensures Frame(a, currentPage, reloaded) == Complete(Frame(a, old(currentPage), textures), pageCount)
      ensures screen == old(screen)
    {
      reloaded := textures;
      if a.rightAngle >= FlipEnd && !a.flippingRight {
        currentPage := currentPage + 2;
        reloaded := LoadTextures();
      }
      if a.leftAngle <= -FlipEnd && !a.flippingLeft {
        currentPage := currentPage - 2;
        reloaded := LoadTextures();
      }
    }

    /** `render_3d` over the given ticks, each with the events that arrived
        before it. The loop's locals follow `Run`; the current page it leaves
        behind is the one the completion checks reached. */
    method Render3D(textures0: seq<int>, frames: seq<seq<Event>>) returns (r: Step)
      requires loaded
      modifies this`currentPage, this`screen
      ensures r == Run(Frame(Start, old(currentPage), textures0), frames, pageCount)
      ensures currentPage == r.frame.page && screen == old(screen)
    {
      ghost var f0 := Frame(Start, currentPage, textures0);
      var textures := textures0;
      var anim := Start;
      var t := 0;
      while t < |frames|
        invariant 0 <= t <= |frames|
        invariant screen == old(screen)
        invariant Run(f0, frames[..t], pageCount) == Step(Running, Frame(anim, currentPage, textures))
      {
        var before := Frame(anim, currentPage, textures);
        assert frames[..t + 1][..t] == frames[..t];
        ghost var tick := Tick(before, frames[t], pageCount);
        assert Run(f0, frames[..t + 1], pageCount) == tick;
        var quit;
        quit, anim := DrainInput(anim, frames[t]);
        if quit {
          r := Step(Quitted, before);
          RunHalts(f0, frames, pageCount, t + 1);
          return;
        }
        anim := TurnRightPage(anim);
        // Drawing the right page binds textures[1].
        if |textures| < 2 {
          r := Step(Crashed, Frame(anim, currentPage, textures));
          RunHalts(f0, frames, pageCount, t + 1);
          return;
        }
        anim := TurnLeftPage(anim);
        textures := CompleteFlips(anim, textures);
        t := t + 1;
      }
      assert frames[..t] == frames;
      r := Step(Running, Frame(anim, currentPage, textures));
    }

    /** "View in 3D": load the current spread's textures, refuse with an error
        box when there are none, and otherwise run the render loop. */
    method ViewIn3D(frames: seq<seq<Event>>) returns (v: View3D)
      modifies this`currentPage, this`screen
      ensures var pages := if loaded then TexturePages(pageCount, old(currentPage)) else [];
        && (pages == [] ==>
              v == NoTexturesShown && currentPage == old(currentPage)
              && screen.shown == old(screen).shown
              && screen.errors == old(screen).errors + (if loaded then [] else [TextureLoadFailed]) + [NoTextures])
        && (pages != [] ==>
              v == Rendered(Run(Frame(Start, old(currentPage), pages), frames, pageCount))
              && currentPage == v.step.frame.page && screen == old(screen))
    {
      var textures := LoadTextures();
      if textures == [] {
        screen := screen.(errors := screen.errors + [NoTextures]);
        return NoTexturesShown;
      }
      var step := Render3D(textures, frames);
      v := Rendered(step);
    }
  }
}

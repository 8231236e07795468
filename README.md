# Sparkle field and page theme logic, modelled in Dafny

This project models the two pieces of logic in the stratix-dev website.

- **The `Vortex` particle field** (`src/vortex.js`). It overlays a canvas on a host element and holds a list of particle records. The particles are created from random draws. Each animation frame moves every particle by its velocity and wraps it onto the canvas with a teleport. The same frame advances the particle's twinkle phase and paints it with a twinkling opacity. The field can be resized and destroyed.
- **The page's theme handling** (`src/main.js`). The page has two themes. It picks the initial theme, toggles it on click, chooses the logo image, and hands `isDark` to a new field. A theme change destroys the current field and replaces it. Scrolling fades the hero content.

The model has five modules:

- `Optional` (`option.dfy`): an `Option` type, used for absent JavaScript properties and storage entries.
- `Particles` (`particles.dfy`): the value-level rules of `vortex.js`. These are the option merge, particle generation from a stream of draws, the wraparound step, frames over lists of particle values, and the twinkle opacity.
- `VortexField` (`vortex.dfy`): classes `Particle` and `Vortex`. A `Particle` is a record whose fields `UpdateParticle` writes in place. The `Vortex` fields are the ones the source reassigns: `particles`, `animationId`, and the canvas `width` and `height`. It also has three fields for browser-side state:
  - `attached`: the canvas is a child of the host.
  - `frameScheduled`: a requested frame callback is pending.
  - `resizeListeners`: the resize listeners this field left on the window.

  The canvas bitmap is modelled as the list of sparkles painted on it. `CreateParticles`, `UpdateParticle`, `DrawParticle`, `Animate` and `Init` are proved equal to the `Particles` functions `Generated`, `Stepped`, `Drawn`, `FrameStates` and `Rendered`. `Resize` and `Destroy` state their new fields directly.
- `Theme` (`theme.dfy`): the pure rules of `main.js`.
- `PageState` (`page.dfy`): the page as a class. Its state is the `data-theme` attribute, the stored theme, the two logo elements and the single `vortexInstance`.

How the outside world is modelled:

- JavaScript numbers are Dafny `real`s.
- `Math.random()` is a supplied sequence `draws`. Each particle takes eight draws, in the order the object literal evaluates its properties. Range facts assume every draw lies in `[0, 1)`.
- `Math.sin` is a supplied function `sin`. Where a bound is needed it is assumed to stay within `[-1, 1]`.
- `Math.PI` is 3.141592653589793, the shortest decimal JavaScript prints for the double nearest π; that double is 3.14159265358979311599796…, so the real differs from it slightly.
- The handle `requestAnimationFrame` returns is a positive integer supplied to each frame.
- The container's bounding rectangle is a supplied `Rect`.
- `localStorage` is the field `storedTheme`.

Behaviour that the model keeps exactly as the source has it:

- **Wraparound.** Underflow snaps to the maximum, and the second test then sees that value, so positions land in the closed range `[0, width]`. A particle left outside the canvas by a shrinking resize is back on the canvas after its next update.
- **Listener removal.** `destroy` removes its resize listener through a newly created closure. That closure was never registered, so the listener stays: `Destroy` leaves `resizeListeners` unchanged.
- **Second destroy.** `destroy` does not clear `animationId`. A second call cancels the same, already-cancelled handle again and changes nothing.
- **Missing hero.** `initializeVortex` looks the `.hero` element up again on every call, so each call takes its presence as an input. When it is missing, a theme change destroys the current field and `vortexInstance` keeps pointing at the destroyed instance.
- **Zero-height hero.** The scroll fade divides by zero. With no scroll this gives NaN, and with a negative scroll it gives Infinity. The style property rejects both, so `ScrollOpacity` returns `None`. A positive scroll gives opacity 0.
- **Unset stored theme.** `localStorage.getItem('theme') || 'light'` also falls back to light when the stored value is the empty string.
- **Negative particle count.** A negative `particleCount` makes the generation loop run zero times.

## Model

| member | source | states |
|---|---|---|
| Particles.Merge | src/vortex.js:13-19 | every option present in the overrides wins; every absent one takes its default (isDark false, 120 particles, sizes 0.5 and 1.5) |
| Particles.MergeExtremes | src/vortex.js:13-19 | no overrides give exactly the defaults; overriding every option gives exactly what was passed |
| Particles.MergeIdempotent | src/vortex.js:13-19 | merging an already merged option set again changes nothing |
| Particles.Count | src/vortex.js:53-55 | the loop runs particleCount times, and zero times for a negative count |
| Particles.Spawn | src/vortex.js:56-65 | the particle the object literal builds from its eight draws; draws in [0,1) give 0 <= x <= width (strictly below a positive width), the same for y, size in [minSize, maxSize] when minSize <= maxSize, speeds in [-0.15, 0.15), opacity in [0.3, 0.8), twinkle speed in [0.01, 0.03), phase in [0, 2*PI) |
| Particles.Generated | src/vortex.js:52-66 | the list has exactly n particles, and particle i is built from draws 8i to 8i+7 in the literal's property order |
| Particles.GeneratedInRange | src/vortex.js:55-65 | every particle of a generated list lies in the ranges of Spawn |
| Particles.Wrap | src/vortex.js:73-77 | for a maximum >= 0 the result lies in [0, max]; a position within [0, max] is kept; below 0 gives max; above max gives 0 |
| Particles.Stepped | src/vortex.js:69-81 | the update leaves size, speeds, opacity and twinkle speed unchanged, raises the phase by exactly the twinkle speed, puts the particle inside [0,w] x [0,h] from any prior position, and moves it by exactly its velocity when that stays in bounds |
| Particles.FrameStates | src/vortex.js:130-133 | the forEach keeps the count, updates every particle once in list order: fixed fields unchanged, phase raised by its speed, and on a canvas with non-negative sides every particle in bounds |
| Particles.Frames | src/vortex.js:135 | repeating the frame n times never changes the particle count |
| Particles.FramesKeepInvariants | src/vortex.js:129-135 | over n frames on a fixed canvas the count and every particle's fixed fields never change, each phase grows by exactly n times its speed, and after one or more frames every particle is in bounds |
| Particles.Twinkle | src/vortex.js:88 | for a sine value in [-1, 1] the twinkle multiplier lies in [0.4, 1.0] |
| Particles.FinalOpacity | src/vortex.js:88-89 | for a sine value in [-1, 1] and a non-negative base opacity, the painted opacity lies between 0.4 times the base and the base |
| Particles.Drawn | src/vortex.js:88-118 | the sparkle drawParticle paints is centred on the particle, with glow radius 4*size and core radius size, in the theme's palette, and for a sine bounded by 1 and a non-negative base opacity its opacity lies between 40% and 100% of the base opacity |
| Particles.Rendered | src/vortex.js:127-133 | after the clear, a frame paints exactly one sparkle per particle, in list order, at that particle's position and size; for a sine within [-1, 1], each particle with a non-negative base opacity is painted with an opacity between 40% and 100% of it |
| VortexField.Vortex.constructor | src/vortex.js:8-25 | the new field uses the merged options, has the container's size, is running with the given frame handle and one resize listener, and holds fresh particles: the generated list after one frame |
| VortexField.Vortex.Init | src/vortex.js:27-43 | attaches the canvas, sizes it, adds one resize listener, generates the particles and runs the first frame |
| VortexField.Vortex.Resize | src/vortex.js:45-49 | only the canvas width and height change (and the bitmap is cleared); every particle stays where it was |
| VortexField.Vortex.CreateParticles | src/vortex.js:51-67 | the list is replaced by Count(options) fresh, distinct records whose values are the generated list, in loop order |
| VortexField.Vortex.UpdateParticle | src/vortex.js:69-81 | the record's new value is Stepped of its old value on the current canvas |
| VortexField.Vortex.DrawParticle | src/vortex.js:83-121 | one sparkle is appended to the canvas, at the particle's position with radii 4*size and size, the twinkled opacity and the theme's palette |
| VortexField.Vortex.Animate | src/vortex.js:123-136 | every record is updated exactly once and the list itself is unchanged; the canvas shows exactly one sparkle per particle in list order; every particle is in bounds; the handle is the new one and a frame is pending |
| VortexField.Vortex.Destroy | src/vortex.js:138-146 | afterwards no frame is pending and the canvas is detached; the resize listener stays registered; on an already destroyed field it changes nothing |
| Theme.InitialTheme | src/main.js:11 | no stored value, or an empty one, gives 'light'; any other stored value is used |
| Theme.Toggled | src/main.js:19 | the result is 'dark' exactly when the current theme is 'light', and 'light' otherwise |
| Theme.ToggleInvolution | src/main.js:18-19 | from 'light' or 'dark', toggling twice returns the original theme |
| Theme.ToggleSettles | src/main.js:18-19 | after one toggle the theme is 'light' or 'dark' whatever the attribute held, and from then on toggles alternate |
| Theme.LogoSrc | src/main.js:32-34 | the white logo is chosen exactly when the theme is 'dark'; otherwise the black one |
| Theme.VortexOverrides | src/main.js:53-55 | the merged options of the new field are the defaults with isDark true exactly for 'dark' |
| Theme.ScrollOpacity | src/main.js:71-72 | the opacity is never negative, is always a number for a positive hero height, and is at most 1 for a non-negative scroll |
| Theme.ScrollFadeEnds | src/main.js:70-72 | at or past half the hero's height, with a positive scroll, the opacity is 0 (a zero height with zero scroll gives NaN and with a negative scroll Infinity, so no opacity); before half the height, for a positive height, it is above 0 |
| Theme.ScrollFadeMonotone | src/main.js:71-72 | for a positive hero height, a larger scroll never gives a larger opacity |
| Theme.ScrollOffset | src/main.js:75 | the upward offset is half the scroll position |
| Theme.FadedWhenLifted | src/main.js:71-75 | for a positive hero height, the content is fully faded exactly when the upward offset has reached a quarter of the hero height |
| PageState.Page.Load | src/main.js:10-60 | at load the attribute holds the initial theme, storage is unchanged, existing logos show that theme's image, and a field for that theme runs exactly when the hero exists at load |
| PageState.Page.UpdateLogos | src/main.js:31-38 | every logo element that exists gets LogoSrc of the theme |
| PageState.Page.InitializeVortex | src/main.js:50-57 | with a hero, a fresh running field with isDark set for 'dark' and 120 particles becomes the instance; without one the instance is unchanged |
| PageState.Page.UpdateVortexTheme | src/main.js:43-48 | any existing instance ends destroyed (and still valid), with its resize listener still registered and its size, particle list, frame handle and canvas unchanged, and is then replaced as by InitializeVortex; with no hero at this call the destroyed instance stays the current one |
| PageState.Page.ToggleTheme | src/main.js:17-29 | the attribute and the stored 'theme' both become the toggled theme, the logos follow it, the old field is destroyed with its size, particle list, frame handle, canvas and resize listener unchanged, and a new field for the new theme is running when the hero exists at the click; otherwise the destroyed field stays the instance and a later click is still possible |

## Left out

- All canvas drawing calls in `drawParticle` (gradient stops, colour strings, `arc`, `fill`, `save`/`restore`, `translate`). Each painted particle is reduced to a `Sparkle`: position, the two radii, final opacity and palette.
- `clearRect`: it is modelled as clearing the sparkle list.
- `Math.sin`, `Math.PI` and IEEE-754 rounding. Numbers are reals, the sine is a supplied bounded function, and π is the shortest decimal JavaScript prints for `Math.PI`. Overflow of the ever-growing twinkle phase is not modelled.
- `requestAnimationFrame` and `cancelAnimationFrame` scheduling and the event loop. A frame is one explicit call of `Animate`, and whether a callback is pending is the field `frameScheduled`.
- The DOM styling of the canvas and container, and `insertBefore`. Insertion is reduced to the flag `attached`.
- `getBoundingClientRect`. The rectangle is an input with non-negative sides.
- The browser's coercion of `canvas.width` and `canvas.height` to integers is not modelled.
- The window resize event. `Resize` is the listener's body, and the registration is a counter.
- Properties of the options object other than the four options. A property present with the value `undefined`, and non-integer or non-boolean option values, are not modelled.
- VortexField.Vortex.constructor: a negative particle size (possible only through a `minSize` or `maxSize` override that is negative) makes `createRadialGradient` or `arc` throw an IndexSizeError during the first frame, so the constructor throws; this error path is not modelled. `src/main.js` passes no sizes, and the defaults give every size at least 0.5.
- VortexField.Vortex.Init: the same IndexSizeError for a negative particle size, thrown from the first frame, is not modelled.
- VortexField.Vortex.Animate: for a negative particle size the frame throws part-way through drawing and no next frame is requested; this is not modelled, and the contract claims the full frame and a pending callback for every size.
- VortexField.Vortex.DrawParticle: `createRadialGradient` (glow radius 4*size) and `arc` (radius size) throw an IndexSizeError for a negative size; the model always appends the sparkle.
- Particles.Merge: the source's `options.isDark || false` default is covered only for boolean values.
- The order in which a theme change destroys the old field and constructs the new one is followed by `UpdateVortexTheme`'s body. Only the end state appears in the contracts, because nothing in the model's state records the order.
- The scroll handler's DOM wiring: the `heroContent` check, reading `scrollY` and `offsetHeight`, and writing the style. Only the opacity and offset formulas are modelled, and the `translateY(-…px)` string is not built.
- Smooth anchor scrolling, the clipboard copy button with its timed feedback, and the IntersectionObserver fade-in in `src/main.js`. All three are browser I/O with no internal logic.
- The page is assumed to have a `#theme-toggle` button. Without it, `themeToggle.addEventListener` throws, the module stops before `initializeVortex(currentTheme)`, and no field is ever started; the model does not cover that page.
- The presence of the `.hero` element is an input of each call that looks it up; what removes or adds the element is not modelled.
- `vite.config.js` is development-server configuration and is not part of this model.

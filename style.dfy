/** The exported document's style sheet as a template with holes for the theme
    colour, and the substitution that fills them. */
module Style {

  /** The alpha suffix the style sheet writes after the theme colour: none, or
      one of the hexadecimal alpha values `dd`, `20` and `30`. */
  datatype Alpha = Opaque | AlphaDD | Alpha20 | Alpha30

  function AlphaText(a: Alpha): string {
    match a
    case Opaque => ""
    case AlphaDD => "dd"
    case Alpha20 => "20"
    case Alpha30 => "30"
  }

  /** A piece of the style sheet: literal text, or the theme colour followed by
      an alpha suffix. */
  datatype Piece = Lit(text: string) | Tone(alpha: Alpha)

  function PieceText(x: Piece, color: string): string {
    match x case Lit(s) => s case Tone(a) => color + AlphaText(a)
  }

  /** The template filled with `color`: each substitution contributes one copy
      of the colour, and nothing else in the result depends on it. */
  function Fill(t: seq<Piece>, color: string): (r: string)
    ensures |r| == FixedLength(t) + Tones(t) * |color|
  {
    if t == [] then ""
    else
      var rest := Fill(t[1..], color);
      OneMore(Tones(t[1..]), |color|);
      PieceText(t[0], color) + rest
  }

  /** One more substitution adds one more copy of the colour. */
  lemma OneMore(k: nat, n: nat)
    ensures (k + 1) * n == k * n + n
  {
  }

  /** The number of places where the theme colour is substituted. */
  function Tones(t: seq<Piece>): nat {
    if t == [] then 0 else (if t[0].Tone? then 1 else 0) + Tones(t[1..])
  }

  /** The length of everything in `t` except the substituted colours. */
  function FixedLength(t: seq<Piece>): nat {
    if t == [] then 0
    else (match t[0] case Lit(s) => |s| case Tone(a) => |AlphaText(a)|) + FixedLength(t[1..])
  }

  lemma {:induction false} FillConcat(a: seq<Piece>, b: seq<Piece>, color: string)
    ensures Fill(a + b, color) == Fill(a, color) + Fill(b, color)
  {
    if a == [] {
      assert a + b == b;
    } else {
      assert (a + b)[0] == a[0];
      assert (a + b)[1..] == a[1..] + b;
      FillConcat(a[1..], b, color);
      assert Fill(a + b, color) == PieceText(a[0], color) + Fill(a[1..] + b, color);
      assert Fill(a, color) == PieceText(a[0], color) + Fill(a[1..], color);
    }
  }

  /** The runs `run(k)`, `run(k + 1)`, ... with a colour slot between each two:
      one more run than there are slots. */
  function Weave(run: nat -> string, slots: seq<Alpha>, k: nat): (r: seq<Piece>)
    ensures |r| == 2 * |slots| + 1
    ensures Tones(r) == |slots|
    decreases |slots|
  {
    if slots == [] then [Lit(run(k))]
    else
      var rest := Weave(run, slots[1..], k + 1);
      var r := [Lit(run(k)), Tone(slots[0])] + rest;
      assert r[1..] == [Tone(slots[0])] + rest && r[1..][1..] == rest;
      r
  }

  /** The literal runs of the style sheet between `<style>` and `</style>`: run 0
      is the text before the first use of the theme colour, run `k` the text
      between uses `k - 1` and `k`, and the last case the text after the last
      use (the style sheet asks for runs 0 to 15 only). */
  function SheetRun(k: nat): string {
    match k {
    case 0 => "\n"
        + "        * {\n"
        + "            margin: 0;\n"
        + "            padding: 0;\n"
        + "            box-sizing: border-box;\n"
        + "        }\n"
        + "        \n"
        + "        body {\n"
        + "            font-family: 'Segoe UI', Tahoma, Geneva, Verdana, sans-serif;\n"
        + "            line-height: 1.6;\n"
        + "            color: #333;\n"
        + "            background: linear-gradient(135deg, #667eea 0%, #764ba2 100%);\n"
        + "            min-height: 100vh;\n"
        + "        }\n"
        + "        \n"
        + "        .container {\n"
        + "            max-width: 1200px;\n"
        + "            margin: 0 auto;\n"
        + "            padding: 20px;\n"
        + "        }\n"
        + "        \n"
        + "        .portfolio {\n"
        + "            background: white;\n"
        + "            border-radius: 20px;\n"
        + "            box-shadow: 0 20px 40px rgba(0,0,0,0.1);\n"
        + "            overflow: hidden;\n"
        + "            animation: fadeInUp 0.8s ease-out;\n"
        + "        }\n"
        + "        \n"
        + "        @keyframes fadeInUp {\n"
        + "            from {\n"
        + "                opacity: 0;\n"
        + "                transform: translateY(30px);\n"
        + "            }\n"
        + "            to {\n"
        + "                opacity: 1;\n"
        + "                transform: translateY(0);\n"
        + "            }\n"
        + "        }\n"
        + "        \n"
        + "        .header {\n"
        + "            background: linear-gradient(135deg, "
    case 1 => ", "
    case 2 => ");\n"
        + "            color: white;\n"
        + "            padding: 60px 40px;\n"
        + "            text-align: center;\n"
        + "            position: relative;\n"
        + "            overflow: hidden;\n"
        + "        }\n"
        + "        \n"
        + "        .header::before {\n"
        + "            content: '';\n"
        + "            position: absolute;\n"
        + "            top: -50%;\n"
        + "            left: -50%;\n"
        + "            width: 200%;\n"
        + "            height: 200%;\n"
        + "            background: radial-gradient(circle, rgba(255,255,255,0.1) 0%, transparent 70%);\n"
        + "            animation: rotate 20s linear infinite;\n"
        + "        }\n"
        + "        \n"
        + "        @keyframes rotate {\n"
        + "            from { transform: rotate(0deg); }\n"
        + "            to { transform: rotate(360deg); }\n"
        + "        }\n"
        + "        \n"
        + "        .profile-image {\n"
        + "            width: 150px;\n"
        + "            height: 150px;\n"
        + "            border-radius: 50%;\n"
        + "            border: 5px solid rgba(255,255,255,0.3);\n"
        + "            margin: 0 auto 20px;\n"
        + "            object-fit: cover;\n"
        + "            position: relative;\n"
        + "            z-index: 1;\n"
        + "        }\n"
        + "        \n"
        + "        .name {\n"
        + "            font-size: 3rem;\n"
        + "            font-weight: 700;\n"
        + "            margin-bottom: 10px;\n"
        + "            position: relative;\n"
        + "            z-index: 1;\n"
        + "        }\n"
        + "        \n"
        + "        .title {\n"
        + "            font-size: 1.5rem;\n"
        + "            opacity: 0.9;\n"
        + "            position: relative;\n"
        + "            z-index: 1;\n"
        + "        }\n"
        + "        \n"
        + "        .content {\n"
        + "            padding: 40px;\n"
        + "        }\n"
        + "        \n"
        + "        .section {\n"
        + "            margin-bottom: 40px;\n"
        + "        }\n"
        + "        \n"
        + "        .section-title {\n"
        + "            font-size: 2rem;\n"
        + "            font-weight: 600;\n"
        + "            margin-bottom: 20px;\n"
        + "            color: "
    case 3 => ";\n"
        + "            position: relative;\n"
        + "            padding-bottom: 10px;\n"
        + "        }\n"
        + "        \n"
        + "        .section-title::after {\n"
        + "            content: '';\n"
        + "            position: absolute;\n"
        + "            bottom: 0;\n"
        + "            left: 0;\n"
        + "            width: 50px;\n"
        + "            height: 3px;\n"
        + "            background: "
    case 4 => ";\n"
        + "            border-radius: 2px;\n"
        + "        }\n"
        + "        \n"
        + "        .bio {\n"
        + "            font-size: 1.1rem;\n"
        + "            line-height: 1.8;\n"
        + "            color: #666;\n"
        + "        }\n"
        + "        \n"
        + "        .skills {\n"
        + "            display: flex;\n"
        + "            flex-wrap: wrap;\n"
        + "            gap: 10px;\n"
        + "        }\n"
        + "        \n"
        + "        .skill {\n"
        + "            background: "
    case 5 => ";\n"
        + "            color: "
    case 6 => ";\n"
        + "            padding: 8px 16px;\n"
        + "            border-radius: 25px;\n"
        + "            font-weight: 500;\n"
        + "            border: 2px solid "
    case 7 => ";\n"
        + "            transition: all 0.3s ease;\n"
        + "        }\n"
        + "        \n"
        + "        .skill:hover {\n"
        + "            background: "
    case 8 => ";\n"
        + "            color: white;\n"
        + "            transform: translateY(-2px);\n"
        + "        }\n"
        + "        \n"
        + "        .projects {\n"
        + "            display: grid;\n"
        + "            grid-template-columns: repeat(auto-fit, minmax(300px, 1fr));\n"
        + "            gap: 20px;\n"
        + "        }\n"
        + "        \n"
        + "        .project {\n"
        + "            background: #f8f9fa;\n"
        + "            border-radius: 15px;\n"
        + "            padding: 25px;\n"
        + "            border: 1px solid #e9ecef;\n"
        + "            transition: all 0.3s ease;\n"
        + "            position: relative;\n"
        + "            overflow: hidden;\n"
        + "        }\n"
        + "        \n"
        + "        .project::before {\n"
        + "            content: '';\n"
        + "            position: absolute;\n"
        + "            top: 0;\n"
        + "            left: 0;\n"
        + "            width: 100%;\n"
        + "            height: 4px;\n"
        + "            background: "
    case 9 => ";\n"
        + "        }\n"
        + "        \n"
        + "        .project:hover {\n"
        + "            transform: translateY(-5px);\n"
        + "            box-shadow: 0 10px 25px rgba(0,0,0,0.1);\n"
        + "        }\n"
        + "        \n"
        + "        .project-title {\n"
        + "            font-size: 1.3rem;\n"
        + "            font-weight: 600;\n"
        + "            margin-bottom: 10px;\n"
        + "            color: #333;\n"
        + "        }\n"
        + "        \n"
        + "        .project-description {\n"
        + "            color: #666;\n"
        + "            margin-bottom: 15px;\n"
        + "            line-height: 1.6;\n"
        + "        }\n"
        + "        \n"
        + "        .project-tech {\n"
        + "            font-size: 0.9rem;\n"
        + "            color: "
    case 10 => ";\n"
        + "            font-weight: 500;\n"
        + "            margin-bottom: 15px;\n"
        + "        }\n"
        + "        \n"
        + "        .project-links {\n"
        + "            display: flex;\n"
        + "            gap: 10px;\n"
        + "        }\n"
        + "        \n"
        + "        .project-link {\n"
        + "            padding: 8px 16px;\n"
        + "            background: "
    case 11 => ";\n"
        + "            color: white;\n"
        + "            text-decoration: none;\n"
        + "            border-radius: 8px;\n"
        + "            font-size: 0.9rem;\n"
        + "            transition: all 0.3s ease;\n"
        + "            display: inline-flex;\n"
        + "            align-items: center;\n"
        + "            gap: 5px;\n"
        + "        }\n"
        + "        \n"
        + "        .project-link:hover {\n"
        + "            background: "
    case 12 => ";\n"
        + "            transform: translateY(-1px);\n"
        + "        }\n"
        + "        \n"
        + "        .contact {\n"
        + "            background: #f8f9fa;\n"
        + "            border-radius: 15px;\n"
        + "            padding: 30px;\n"
        + "            text-align: center;\n"
        + "        }\n"
        + "        \n"
        + "        .contact-links {\n"
        + "            display: flex;\n"
        + "            justify-content: center;\n"
        + "            flex-wrap: wrap;\n"
        + "            gap: 20px;\n"
        + "            margin-top: 20px;\n"
        + "        }\n"
        + "        \n"
        + "        .contact-link {\n"
        + "            display: flex;\n"
        + "            align-items: center;\n"
        + "            gap: 8px;\n"
        + "            padding: 10px 20px;\n"
        + "            background: white;\n"
        + "            color: "
    case 13 => ";\n"
        + "            text-decoration: none;\n"
        + "            border-radius: 10px;\n"
        + "            border: 2px solid "
    case 14 => ";\n"
        + "            transition: all 0.3s ease;\n"
        + "            font-weight: 500;\n"
        + "        }\n"
        + "        \n"
        + "        .contact-link:hover {\n"
        + "            background: "
    case _ => ";\n"
        + "            color: white;\n"
        + "            transform: translateY(-2px);\n"
        + "        }\n"
        + "        \n"
        + "        @media (max-width: 768px) {\n"
        + "            .container {\n"
        + "                padding: 10px;\n"
        + "            }\n"
        + "            \n"
        + "            .header {\n"
        + "                padding: 40px 20px;\n"
        + "            }\n"
        + "            \n"
        + "            .name {\n"
        + "                font-size: 2rem;\n"
        + "            }\n"
        + "            \n"
        + "            .title {\n"
        + "                font-size: 1.2rem;\n"
        + "            }\n"
        + "            \n"
        + "            .content {\n"
        + "                padding: 20px;\n"
        + "            }\n"
        + "            \n"
        + "            .projects {\n"
        + "                grid-template-columns: 1fr;\n"
        + "            }\n"
        + "            \n"
        + "            .contact-links {\n"
        + "                flex-direction: column;\n"
        + "                align-items: center;\n"
        + "            }\n"
        + "        }\n"
        + "    "
    }
  }

  /** The alpha suffix written after the theme colour at each of its uses, in
      document order (the `.header` gradient uses it twice, plain and with `dd`). */
  const SheetSlots: seq<Alpha> := [Opaque, AlphaDD, Opaque, Opaque, Alpha20, Opaque, Alpha30, Opaque,
                                   Opaque, Opaque, Opaque, AlphaDD, Opaque, Alpha30, Opaque]

  /** The style sheet with the theme colour left open at each slot. */
  const StyleSheet: seq<Piece> := Weave(SheetRun, SheetSlots, 0)

  /** The theme colour appears fifteen times in the style sheet. */
  lemma StyleSheetSlots()
    ensures Tones(StyleSheet) == 15
  {
    assert |SheetSlots| == 15;
  }

  lemma FillFramed(prelude: string, sheet: seq<Piece>, body: string, c: string)
    ensures Fill([Lit(prelude)] + (sheet + [Lit(body)]), c) == prelude + Fill(sheet, c) + body
  {
    FillConcat([Lit(prelude)], sheet + [Lit(body)], c);
    FillConcat(sheet, [Lit(body)], c);
    FillSingle(Lit(prelude), c);
    FillSingle(Lit(body), c);
  }

  lemma FillSingle(x: Piece, c: string)
    ensures Fill([x], c) == PieceText(x, c)
  {
    assert [x][1..] == [];
  }
}
